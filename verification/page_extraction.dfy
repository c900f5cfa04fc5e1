/**
 * The extractors the enrichment tool runs over a fetched company website. The parsed
 * page is given as the values BeautifulSoup would hand the extractors: the page text,
 * the anchors, meta tags, div/section blocks and paragraphs, in document order.
 */
module PageExtraction {
  import opened Wrappers
  import opened Text
  import opened Values
  import opened Patterns

  /** An `<a>` element and its `href` attribute, if it has one. */
  datatype Anchor = Anchor(href: Option<string>)

  /** A `<meta>` element's `name` and `content` attributes. */
  datatype Meta = Meta(name: Option<string>, content: Option<string>)

  /** A `<div>` or `<section>`: its `.string` (present when it holds a single string) and its stripped text. */
  datatype Block = Block(ownString: Option<string>, strippedText: string)

  datatype Page = Page(
    text: string,              // soup.get_text()
    textEmails: seq<string>,   // what re.findall of the e-mail pattern returns over `text`
    anchors: seq<Anchor>,
    metas: seq<Meta>,
    blocks: seq<Block>,
    paragraphs: seq<string>)   // get_text(strip=True) of each <p>

  /** The strings of `xs` are pairwise distinct. */
  predicate NoDuplicates<T(==)>(xs: seq<T>) {
    forall i, j :: 0 <= i < j < |xs| ==> xs[i] != xs[j]
  }

  /** `list(s)` for a Python set `s`: each element once, in an order the model leaves open. */
  method ListOfSet<T>(s: set<T>) returns (xs: seq<T>)
    ensures NoDuplicates(xs)
    ensures forall x :: x in xs <==> x in s
  {
    xs := [];
    var pending := s;
    while pending != {}
      invariant pending <= s
      invariant forall x :: x in xs <==> x in s - pending
      invariant NoDuplicates(xs)
      decreases |pending|
    {
      var x :| x in pending;
      assert x !in xs;
      xs := xs + [x];
      pending := pending - {x};
    }
  }

  // ---- e-mails ----

  const Placeholders: set<string> := {"example@example.com", "test@test.com", "admin@domain.com"}

  /** The filter drops an address whose lower-cased form is a placeholder. */
  predicate IsPlaceholder(e: string) {
    Lower(e) in Placeholders
  }

  /** What each `mailto:` link contributes: its href with every "mailto:" removed. */
  function MailtoAddresses(anchors: seq<Anchor>): set<string> {
    set a | a in anchors && a.href.Some? && StartsWith(a.href.value, "mailto:") :: RemoveAll(a.href.value, "mailto:")
  }

  /** The addresses `_find_emails` keeps: found in the text or in a mailto link, and not a placeholder. */
  function EmailSet(page: Page): set<string> {
    set e | e in (set x | x in page.textEmails) + MailtoAddresses(page.anchors) && !IsPlaceholder(e)
  }

  /**
   * When the text matches are pieces of the page text, as `re.findall` returns them, every
   * address kept is a piece of the text or the address of one of the page's `mailto:` links.
   */
  lemma EmailSetSources(page: Page)
    requires forall e :: e in page.textEmails ==> OccursIn(page.text, e)
    ensures forall e :: e in EmailSet(page) ==>
      && !IsPlaceholder(e)
      && (|| OccursIn(page.text, e)
          || exists a :: a in page.anchors && a.href.Some? && StartsWith(a.href.value, "mailto:") && e == RemoveAll(a.href.value, "mailto:"))
  {
  }

  lemma MailtoAddressesSnoc(anchors: seq<Anchor>, a: Anchor)
    ensures MailtoAddresses(anchors + [a]) ==
      MailtoAddresses(anchors) + (if a.href.Some? && StartsWith(a.href.value, "mailto:") then {RemoveAll(a.href.value, "mailto:")} else {})
  {
    var both := anchors + [a];
    assert forall b :: b in both <==> b in anchors || b == a;
  }

  /** A `mailto:` link with a single scheme prefix contributes the address after it. */
  lemma MailtoContributesAddress(anchors: seq<Anchor>, i: nat, address: string)
    requires i < |anchors| && anchors[i].href == Some("mailto:" + address) && Absent(address, "mailto:")
    ensures address in MailtoAddresses(anchors)
  {
    RemoveLeading("mailto:", address);
    assert StartsWith("mailto:" + address, "mailto:");
    assert anchors[i] in anchors;
  }

  /**
   * `_find_emails`: the addresses of the page, each once, placeholders dropped. The order is
   * that of a Python set, which the model does not fix.
   */
  method FindEmails(page: Page) returns (emails: seq<string>)
    ensures NoDuplicates(emails)
    ensures forall e :: e in emails <==> e in EmailSet(page)
    ensures forall e :: e in emails ==> Lower(e) !in Placeholders
  {
    var found := CollectAddresses(page);
    emails := DropPlaceholders(found);
  }

  /** The text matches and the `mailto:` addresses, gathered into a set. */
  method CollectAddresses(page: Page) returns (found: set<string>)
    ensures found == (set x | x in page.textEmails) + MailtoAddresses(page.anchors)
  {
    found := set x | x in page.textEmails;
    for i := 0 to |page.anchors|
      invariant found == (set x | x in page.textEmails) + MailtoAddresses(page.anchors[..i])
    {
      var a := page.anchors[i];
      assert page.anchors[..i + 1] == page.anchors[..i] + [a];
      MailtoAddressesSnoc(page.anchors[..i], a);
      if a.href.Some? && StartsWith(a.href.value, "mailto:") {
        found := found + {RemoveAll(a.href.value, "mailto:")};
      }
    }
    assert page.anchors[..|page.anchors|] == page.anchors;
  }

  /** The list comprehension over the set: each address once, placeholders dropped. */
  method DropPlaceholders(found: set<string>) returns (emails: seq<string>)
    ensures NoDuplicates(emails)
    ensures forall e :: e in emails <==> e in found && !IsPlaceholder(e)
  {
    emails := [];
    var pending := found;
    while pending != {}
      invariant pending <= found
      invariant forall e :: e in emails <==> e in found - pending && !IsPlaceholder(e)
      invariant NoDuplicates(emails)
      decreases |pending|
    {
      var e :| e in pending;
      if !IsPlaceholder(e) {
        assert e !in emails;
        emails := emails + [e];
      }
      pending := pending - {e};
    }
  }

  // ---- social networks ----

  /** The first platform, trying them from index `j` in order, whose pattern `href` matches. */
  function PlatformFrom(href: string, j: nat): (r: Option<string>)
    requires j <= |Platforms|
    ensures r.Some? ==> r.value in Platforms && MatchesPlatform(href, r.value)
    ensures r.None? ==> forall m :: j <= m < |Platforms| ==> !MatchesPlatform(href, Platforms[m])
    decreases |Platforms| - j
  {
    if j == |Platforms| then None
    else if MatchesPlatform(href, Platforms[j]) then Some(Platforms[j])
    else PlatformFrom(href, j + 1)
  }

  /** The platform an href is filed under: the first whose pattern it matches. */
  function PlatformOf(href: string): Option<string> {
    PlatformFrom(href, 0)
  }

  /** An href is filed under a platform only if no earlier platform's pattern matches it. */
  lemma {:induction false} PlatformFromFirst(href: string, j: nat, k: nat)
    requires j <= k < |Platforms| && PlatformFrom(href, j) == Some(Platforms[k])
    ensures forall m :: j <= m < k ==> !MatchesPlatform(href, Platforms[m])
    decreases k - j
  {
    if j < k {
      if MatchesPlatform(href, Platforms[j]) {
        assert false;
      } else {
        PlatformFromFirst(href, j + 1, k);
      }
    }
  }

  /** The hrefs of the anchors that have one (`find_all('a', href=True)`), in document order. */
  function Hrefs(anchors: seq<Anchor>): (r: seq<string>)
    ensures |r| <= |anchors|
  {
    if anchors == [] then []
    else
      var last := match anchors[|anchors| - 1].href case Some(h) => [h] case None => [];
      Hrefs(anchors[..|anchors| - 1]) + last
  }

  /** Every anchor with an href contributes it, and nothing else is listed. */
  lemma {:induction false} HrefsExactly(anchors: seq<Anchor>)
    ensures forall h :: h in Hrefs(anchors) <==> exists i :: 0 <= i < |anchors| && anchors[i].href == Some(h)
    decreases |anchors|
  {
    if anchors != [] {
      var init := anchors[..|anchors| - 1];
      HrefsExactly(init);
      forall h ensures h in Hrefs(anchors) <==> exists i :: 0 <= i < |anchors| && anchors[i].href == Some(h) {
        if h in Hrefs(anchors) && h !in Hrefs(init) {
          assert anchors[|anchors| - 1].href == Some(h);
        }
        if exists i :: 0 <= i < |anchors| && anchors[i].href == Some(h) {
          var i :| 0 <= i < |anchors| && anchors[i].href == Some(h);
          if i < |anchors| - 1 {
            assert init[i] == anchors[i];
          }
        }
      }
    }
  }

  /** The hrefs of two runs of anchors are those of the first, then those of the second: document order is kept. */
  lemma {:induction false} HrefsAppend(a: seq<Anchor>, b: seq<Anchor>)
    ensures Hrefs(a + b) == Hrefs(a) + Hrefs(b)
    decreases |b|
  {
    if b == [] {
      assert a + b == a;
    } else {
      var init := b[..|b| - 1];
      HrefsAppend(a, init);
      assert (a + b)[..|a + b| - 1] == a + init;
      assert (a + b)[|a + b| - 1] == b[|b| - 1];
    }
  }

  /** One anchor contributes its href if it has one, and nothing otherwise. */
  lemma HrefsOne(x: Anchor)
    ensures Hrefs([x]) == if x.href.Some? then [x.href.value] else []
  {
    assert [x][..0] == [];
  }

  /** The dict built by writing each value, in order, under its key; entries without a key are skipped. */
  function FiledMap<K, V>(entries: seq<(Option<K>, V)>): map<K, V>
    decreases |entries|
  {
    if entries == [] then map[]
    else
      var m := FiledMap(entries[..|entries| - 1]);
      var e := entries[|entries| - 1];
      if e.0.Some? then m[e.0.value := e.1] else m
  }

  /** A key is present iff some entry is written under it. */
  lemma {:induction false} FiledMapKeys<K, V>(entries: seq<(Option<K>, V)>)
    ensures forall k :: k in FiledMap(entries) <==> exists i :: 0 <= i < |entries| && entries[i].0 == Some(k)
    decreases |entries|
  {
    if entries != [] {
      var init := entries[..|entries| - 1];
      FiledMapKeys(init);
      assert forall i :: 0 <= i < |init| ==> init[i] == entries[i];
    }
  }

  /** The value under a key is that of the last entry written under it. */
  lemma {:induction false} FiledMapLastWins<K, V>(entries: seq<(Option<K>, V)>, k: K)
    requires k in FiledMap(entries)
    ensures exists i :: 0 <= i < |entries| && entries[i] == (Some(k), FiledMap(entries)[k])
                        && forall j :: i < j < |entries| ==> entries[j].0 != Some(k)
    decreases |entries|
  {
    var init := entries[..|entries| - 1];
    var e := entries[|entries| - 1];
    if e.0 != Some(k) {
      FiledMapLastWins(init, k);
      var i :| 0 <= i < |init| && init[i] == (Some(k), FiledMap(init)[k])
                && forall j :: i < j < |init| ==> init[j].0 != Some(k);
      assert entries[i] == init[i];
      forall j | i < j < |entries| ensures entries[j].0 != Some(k) {
        if j < |init| { assert entries[j] == init[j]; }
      }
    }
  }

  /** Each href paired with the platform it is filed under. */
  function PlatformEntries(hrefs: seq<string>): seq<(Option<string>, string)> {
    seq(|hrefs|, i requires 0 <= i < |hrefs| => (PlatformOf(hrefs[i]), hrefs[i]))
  }

  /** The dict `_find_social_media` builds: each href, in order, written under its platform. */
  function SocialLinks(hrefs: seq<string>): map<string, string> {
    FiledMap(PlatformEntries(hrefs))
  }

  /** One more href: it overwrites the entry of its platform, if it has one. */
  lemma SocialLinksSnoc(hrefs: seq<string>, h: string)
    ensures SocialLinks(hrefs + [h]) ==
      if PlatformOf(h).Some? then SocialLinks(hrefs)[PlatformOf(h).value := h] else SocialLinks(hrefs)
  {
    var entries := PlatformEntries(hrefs + [h]);
    assert entries[..|hrefs|] == PlatformEntries(hrefs);
  }

  /** Only the six platforms appear, and a platform appears iff some href is filed under it. */
  lemma SocialLinksKeys(hrefs: seq<string>)
    ensures forall p :: p in SocialLinks(hrefs) ==> p in Platforms
    ensures forall p :: p in SocialLinks(hrefs) <==> exists i :: 0 <= i < |hrefs| && PlatformOf(hrefs[i]) == Some(p)
  {
    var entries := PlatformEntries(hrefs);
    FiledMapKeys(entries);
    assert forall i :: 0 <= i < |hrefs| ==> entries[i].0 == PlatformOf(hrefs[i]);
  }

  /**
   * The value under a platform is the raw href of the LAST href filed under it: a later
   * link for the same platform overwrites an earlier one.
   */
  lemma SocialLinksLastWins(hrefs: seq<string>, p: string)
    requires p in SocialLinks(hrefs)
    ensures exists i :: (0 <= i < |hrefs| && hrefs[i] == SocialLinks(hrefs)[p] && PlatformOf(hrefs[i]) == Some(p)
                        && forall k :: i < k < |hrefs| ==> PlatformOf(hrefs[k]) != Some(p))
  {
    var entries := PlatformEntries(hrefs);
    FiledMapLastWins(entries, p);
    var i :| 0 <= i < |entries| && entries[i] == (Some(p), FiledMap(entries)[p])
             && forall j :: i < j < |entries| ==> entries[j].0 != Some(p);
    assert forall k :: 0 <= k < |hrefs| ==> entries[k] == (PlatformOf(hrefs[k]), hrefs[k]);
  }

  /** `_find_social_media`: for each anchor with an href, try the platforms in order and file it under the first that matches. */
  method FindSocialMedia(anchors: seq<Anchor>) returns (links: map<string, string>)
    ensures links == SocialLinks(Hrefs(anchors))
  {
    links := map[];
    var i := 0;
    while i < |anchors|
      invariant 0 <= i <= |anchors|
      invariant links == SocialLinks(Hrefs(anchors[..i]))
    {
      assert anchors[..i + 1][..i] == anchors[..i];
      ghost var target := SocialLinks(Hrefs(anchors[..i + 1]));
      if anchors[i].href.Some? {
        var href := anchors[i].href.value;
        assert Hrefs(anchors[..i + 1]) == Hrefs(anchors[..i]) + [href];
        assert Hrefs(anchors[..i + 1])[..|Hrefs(anchors[..i + 1])| - 1] == Hrefs(anchors[..i]);
        var j := 0;
        while j < |Platforms|
          invariant 0 <= j <= |Platforms|
          invariant PlatformFrom(href, j) == PlatformOf(href)
          invariant links == SocialLinks(Hrefs(anchors[..i]))
        {
          if MatchesPlatform(href, Platforms[j]) {
            links := links[Platforms[j] := href];
            break;
          }
          j := j + 1;
        }
        SocialLinksSnoc(Hrefs(anchors[..i]), href);
        assert links == target;
      } else {
        assert Hrefs(anchors[..i + 1]) == Hrefs(anchors[..i]);
      }
      i := i + 1;
    }
    assert anchors[..i] == anchors;
  }

  // ---- description ----

  /** The index of the first `<meta name="description">`. */
  function DescriptionMetaFrom(metas: seq<Meta>, from: nat): (r: Option<nat>)
    requires from <= |metas|
    ensures r.Some? ==> (from <= r.value < |metas| && metas[r.value].name == Some("description")
                         && forall k :: from <= k < r.value ==> metas[k].name != Some("description"))
    ensures r.None? ==> forall k :: from <= k < |metas| ==> metas[k].name != Some("description")
    decreases |metas| - from
  {
    if from == |metas| then None
    else if metas[from].name == Some("description") then Some(from)
    else DescriptionMetaFrom(metas, from + 1)
  }

  /** A div or section whose own string mentions "sobre", "about" or "quem somos", ignoring case. */
  predicate IsAboutBlock(b: Block) {
    b.ownString.Some? &&
    (ContainsIgnoringCase(b.ownString.value, "sobre") || ContainsIgnoringCase(b.ownString.value, "about")
     || ContainsIgnoringCase(b.ownString.value, "quem somos"))
  }

  /** The index of the first about block. */
  function AboutBlockFrom(blocks: seq<Block>, from: nat): (r: Option<nat>)
    requires from <= |blocks|
    ensures r.Some? ==> (from <= r.value < |blocks| && IsAboutBlock(blocks[r.value])
                         && forall k :: from <= k < r.value ==> !IsAboutBlock(blocks[k]))
    ensures r.None? ==> forall k :: from <= k < |blocks| ==> !IsAboutBlock(blocks[k])
    decreases |blocks| - from
  {
    if from == |blocks| then None
    else if IsAboutBlock(blocks[from]) then Some(from)
    else AboutBlockFrom(blocks, from + 1)
  }

  /**
   * `_find_company_description`, by precedence: the first description meta tag's content,
   * whole (empty when the tag has none); else the first about block, cut to 500 characters;
   * else the first paragraph, cut to 300; else "".
   */
  function CompanyDescription(page: Page): (d: string)
    ensures DescriptionMetaFrom(page.metas, 0).Some? ==>
      d == page.metas[DescriptionMetaFrom(page.metas, 0).value].content.GetOr("")
    ensures DescriptionMetaFrom(page.metas, 0).None? && AboutBlockFrom(page.blocks, 0).Some? ==>
      var text := page.blocks[AboutBlockFrom(page.blocks, 0).value].strippedText;
      |d| == (if |text| < 500 then |text| else 500) && d == text[..|d|]
    ensures DescriptionMetaFrom(page.metas, 0).None? && AboutBlockFrom(page.blocks, 0).None? && page.paragraphs != [] ==>
      |d| == (if |page.paragraphs[0]| < 300 then |page.paragraphs[0]| else 300) && d == page.paragraphs[0][..|d|]
    ensures DescriptionMetaFrom(page.metas, 0).None? && AboutBlockFrom(page.blocks, 0).None? && page.paragraphs == [] ==> d == ""
  {
    match DescriptionMetaFrom(page.metas, 0)
    case Some(i) => page.metas[i].content.GetOr("")
    case None =>
      match AboutBlockFrom(page.blocks, 0)
      case Some(j) => Take(page.blocks[j].strippedText, 500)
      case None => if page.paragraphs != [] then Take(page.paragraphs[0], 300) else ""
  }

  /** Only a meta tag's content can exceed 500 characters; a paragraph gives at most 300. */
  lemma DescriptionBounds(page: Page)
    ensures DescriptionMetaFrom(page.metas, 0).None? ==> |CompanyDescription(page)| <= 500
    ensures DescriptionMetaFrom(page.metas, 0).None? && AboutBlockFrom(page.blocks, 0).None? ==> |CompanyDescription(page)| <= 300
  {
  }

  // ---- phones ----

  /**
   * `_find_additional_phones`: every match of the three Brazilian phone patterns in the
   * page text, each once, in the order of a Python set (not fixed by the model).
   */
  method FindAdditionalPhones(text: string) returns (phones: seq<string>)
    ensures NoDuplicates(phones)
    ensures forall x :: x in phones <==> x in PhoneSet(text)
    ensures forall x :: x in phones ==> |x| >= 10 && OccursIn(text, x)
  {
    var found: set<string> := {};
    var n := 0;
    while n < |PhoneShapes|
      invariant 0 <= n <= |PhoneShapes|
      invariant forall x :: x in found <==> exists k :: 0 <= k < n && x in FindPhones(PhoneShapes[k], text, 0)
    {
      found := found + (set x | x in FindPhones(PhoneShapes[n], text, 0));
      n := n + 1;
    }
    assert found == PhoneSet(text) by {
      forall x | x in PhoneSet(text) ensures x in found {
        var shape :| shape in PhoneShapes && x in FindPhones(shape, text, 0);
        var k :| 0 <= k < |PhoneShapes| && PhoneShapes[k] == shape;
      }
    }
    phones := ListOfSet(found);
    forall x | x in phones ensures |x| >= 10 && OccursIn(text, x) {
      PhoneSetMember(text, x);
    }
  }

  /** A phone in the found set is a piece of the text at least ten characters long. */
  lemma PhoneSetMember(text: string, x: string)
    requires x in PhoneSet(text)
    ensures |x| >= 10 && OccursIn(text, x)
  {
    var shape :| shape in PhoneShapes && x in FindPhones(shape, text, 0);
    var i :| 0 <= i < |FindPhones(shape, text, 0)| && FindPhones(shape, text, 0)[i] == x;
  }

  // ---- company registration and founding year ----

  /**
   * `_find_company_info`: `cnpj` is the leftmost `dd.ddd.ddd/dddd-dd` in the text, and
   * `ano_fundacao` the four digits after the leftmost "desde" / "fundado em" / "fundada em";
   * each key is present only when its pattern matches.
   */
  function CompanyInfo(text: string): (info: Dict)
    ensures info.Keys <= {"cnpj", "ano_fundacao"}
    ensures "cnpj" in info <==> exists p :: 0 <= p <= |text| && CnpjAt(text, p)
    ensures "cnpj" in info ==>
      exists p :: (0 <= p <= |text| - 18 && CnpjAt(text, p)
                   && info["cnpj"] == Str(text[p..p + 18]) && forall q :: 0 <= q < p ==> !CnpjAt(text, q))
    ensures "ano_fundacao" in info <==> exists p :: 0 <= p <= |text| && YearAt(text, p).Some?
    ensures "ano_fundacao" in info ==>
      (info["ano_fundacao"].Str? && |info["ano_fundacao"].s| == 4
       && forall k :: 0 <= k < 4 ==> IsDigit(info["ano_fundacao"].s[k]))
    ensures "ano_fundacao" in info ==>
      exists p :: (0 <= p < |text| && YearAt(text, p) == Some(info["ano_fundacao"].s)
                   && forall q :: 0 <= q < p ==> YearAt(text, q).None?)
  {
    FindCnpjLeftmost(text, 0);
    FindYearLeftmost(text, 0);
    FindYearNone(text, 0);
    var c := FindCnpj(text, 0);
    var y := FindYear(text, 0);
    var withCnpj: Dict := if c.Some? then map["cnpj" := Str(text[c.value..c.value + 18])] else map[];
    if y.Some? then
      assert |y.value| == 4;
      var i :| 0 <= i < |text| && YearAt(text, i) == y && forall q :: 0 <= q < i ==> YearAt(text, q).None?;
      withCnpj["ano_fundacao" := Str(y.value)]
    else withCnpj
  }

  // ---- all findings of a page ----

  /** What the extractors find on a page: the e-mail and phone sets, the links, the description and the company facts. */
  datatype Findings = Findings(
    emails: set<string>,
    social: map<string, string>,
    description: string,
    phones: set<string>,
    company: Dict)

  function PageFindings(page: Page): Findings {
    Findings(EmailSet(page), SocialLinks(Hrefs(page.anchors)), CompanyDescription(page), PhoneSet(page.text), CompanyInfo(page.text))
  }

  /** What holds of every page's findings: clean phones of ten or more characters, and only the two company keys. */
  ghost predicate WellFormedFindings(f: Findings) {
    && (forall x :: x in f.phones ==> |x| >= 10 && KeepPhoneChars(x) == x)
    && f.company.Keys <= {"cnpj", "ano_fundacao"}
  }

  lemma PageFindingsWellFormed(page: Page)
    ensures WellFormedFindings(PageFindings(page))
  {
    var f := PageFindings(page);
    assert f.phones == PhoneSet(page.text) && f.company == CompanyInfo(page.text);
    FoundPhoneSetIsClean(page.text);
    CompanyInfoKeys(page.text);
  }

  lemma CompanyInfoKeys(text: string)
    ensures CompanyInfo(text).Keys <= {"cnpj", "ano_fundacao"}
  {
  }

  lemma FoundPhoneSetIsClean(text: string)
    ensures forall x :: x in PhoneSet(text) ==> |x| >= 10 && KeepPhoneChars(x) == x
  {
    forall x | x in PhoneSet(text) ensures |x| >= 10 && KeepPhoneChars(x) == x {
      FoundPhonesAreClean(text, x);
    }
  }
}
