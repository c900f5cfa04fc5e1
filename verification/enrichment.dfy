/**
 * The data enrichment tool: a lead record (a dict) is updated with what the company's
 * website shows and with a search note, then validated and cleaned. Any exception during
 * enrichment gives back the lead unchanged.
 */
module DataEnrichment {
  import opened Wrappers
  import opened Text
  import opened Values
  import opened Patterns
  import opened PageExtraction

  /** What fetching the lead's website gives: a parsed page, or a failure (network error, HTTP error status). */
  datatype Fetch = FetchFailed | Fetched(page: Page)

  /** What the extractors find on the fetched website; None when the fetch failed. */
  function FindingsOf(fetch: Fetch): Option<Findings> {
    match fetch
    case FetchFailed => None
    case Fetched(page) => Some(PageFindings(page))
  }

  /** `v` is a list of distinct strings holding exactly the elements of `s`. */
  ghost predicate ListsExactly(v: Value, s: set<string>) {
    && v.List?
    && (forall i :: 0 <= i < |v.items| ==> v.items[i].Str? && v.items[i].s in s)
    && (forall x :: x in s ==> Str(x) in v.items)
    && NoDuplicates(v.items)
  }

  /** `xs` lists the elements of `s`, each once. */
  ghost predicate Listing(xs: seq<string>, s: set<string>) {
    NoDuplicates(xs) && forall x :: x in xs <==> x in s
  }

  lemma StrsListsExactly(xs: seq<string>, s: set<string>)
    requires Listing(xs, s)
    ensures ListsExactly(Strs(xs), s)
    ensures xs != [] <==> s != {}
  {
    forall x | x in s ensures Str(x) in Strs(xs).items {
      var i :| 0 <= i < |xs| && xs[i] == x;
      assert Strs(xs).items[i] == Str(x);
    }
    if xs != [] {
      assert xs[0] in s;
    }
  }

  /** The keys the website extraction can add. */
  const WebsiteKeys: set<string> :=
    {"email", "emails_encontrados", "redes_sociais", "descricao", "telefones_adicionais", "cnpj", "ano_fundacao"}

  /**
   * The dict `_extract_website_info` assembles from the extractors' results: each finding
   * under its key when it is not empty, the first e-mail also under `email`, then the
   * company facts.
   */
  function Assembled(emails: seq<string>, social: map<string, string>, description: string, phones: seq<string>, company: Dict): Dict {
    var withEmails: Dict := if emails != [] then map["email" := Str(emails[0]), "emails_encontrados" := Strs(emails)] else map[];
    var withSocial := if social != map[] then withEmails["redes_sociais" := StrObj(social)] else withEmails;
    var withDescription := if description != "" then withSocial["descricao" := Str(description)] else withSocial;
    var withPhones := if phones != [] then withDescription["telefones_adicionais" := Strs(phones)] else withDescription;
    withPhones + company
  }

  /**
   * `info` is what `_extract_website_info` returns given what the extractors found: nothing
   * when the fetch failed, else the assembled dict for some listing order of the e-mail
   * and phone sets.
   */
  ghost predicate SiteInfo(site: Option<Findings>, info: Dict) {
    match site
    case None => info == map[]
    case Some(f) =>
      exists emails, phones :: Listing(emails, f.emails) && Listing(phones, f.phones)
                               && info == Assembled(emails, f.social, f.description, phones, f.company)
  }

  /** The conditional updates that fill the website dict. */
  method Assemble(emails: seq<string>, social: map<string, string>, description: string, phones: seq<string>, company: Dict)
    returns (info: Dict)
    ensures info == Assembled(emails, social, description, phones, company)
  {
    info := map[];
    if emails != [] {
      info := info["email" := Str(emails[0])];
      info := info["emails_encontrados" := Strs(emails)];
    }
    if social != map[] {
      info := info["redes_sociais" := StrObj(social)];
    }
    if description != "" {
      info := info["descricao" := Str(description)];
    }
    if phones != [] {
      info := info["telefones_adicionais" := Strs(phones)];
    }
    info := info + company;
  }

  /** `_extract_website_info`: run every extractor over the fetched page. */
  method ExtractWebsiteInfo(fetch: Fetch) returns (info: Dict)
    ensures SiteInfo(FindingsOf(fetch), info)
  {
    if fetch.FetchFailed? {
      return map[];
    }
    var page := fetch.page;
    var emails := FindEmails(page);
    var social := FindSocialMedia(page.anchors);
    var description := CompanyDescription(page);
    var phones := FindAdditionalPhones(page.text);
    info := Assemble(emails, social, description, phones, CompanyInfo(page.text));
    assert Listing(emails, EmailSet(page)) && Listing(phones, PhoneSet(page.text));
  }

  /** The e-mail keys: present iff an address was found; `email` is the first of the list. */
  ghost predicate EmailsFiled(f: Findings, info: Dict) {
    && ("email" in info <==> f.emails != {})
    && ("emails_encontrados" in info <==> f.emails != {})
    && ("emails_encontrados" in info ==>
          && ListsExactly(info["emails_encontrados"], f.emails)
          && |info["emails_encontrados"].items| > 0
          && info["email"] == info["emails_encontrados"].items[0])
  }

  /** The social links and the description: present iff found, as found. */
  ghost predicate DetailsFiled(f: Findings, info: Dict) {
    && ("redes_sociais" in info <==> f.social != map[])
    && ("redes_sociais" in info ==> info["redes_sociais"] == StrObj(f.social))
    && ("descricao" in info <==> f.description != "")
    && ("descricao" in info ==> info["descricao"] == Str(f.description))
  }

  /** The phones: present iff some were found, listed each once. */
  ghost predicate PhonesFiled(f: Findings, info: Dict) {
    && ("telefones_adicionais" in info <==> f.phones != {})
    && ("telefones_adicionais" in info ==> ListsExactly(info["telefones_adicionais"], f.phones))
  }

  /** The company facts, copied as found; no other key appears. */
  ghost predicate CompanyFiled(f: Findings, info: Dict) {
    && info.Keys <= WebsiteKeys
    && ("cnpj" in info <==> "cnpj" in f.company)
    && ("ano_fundacao" in info <==> "ano_fundacao" in f.company)
    && (forall k :: k in f.company ==> k in info && info[k] == f.company[k])
  }

  /** The findings, key by key, and the types of their values. */
  ghost predicate Filed(f: Findings, info: Dict) {
    && WellTyped(info)
    && EmailsFiled(f, info)
    && DetailsFiled(f, info)
    && PhonesFiled(f, info)
    && CompanyFiled(f, info)
  }

  /** Where each finding lands in the website dict. */
  lemma SiteInfoFiled(f: Findings, info: Dict)
    requires WellFormedFindings(f) && SiteInfo(Some(f), info)
    ensures Filed(f, info)
  {
    var emails, phones :| Listing(emails, f.emails) && Listing(phones, f.phones)
                          && info == Assembled(emails, f.social, f.description, phones, f.company);
    AssembledEmails(f, emails, phones, info);
    AssembledDetails(f, emails, phones, info);
    AssembledPhones(f, emails, phones, info);
    AssembledCompany(f, emails, phones, info);
  }

  lemma AssembledEmails(f: Findings, emails: seq<string>, phones: seq<string>, info: Dict)
    requires f.company.Keys <= {"cnpj", "ano_fundacao"} && Listing(emails, f.emails)
    requires info == Assembled(emails, f.social, f.description, phones, f.company)
    ensures EmailsFiled(f, info) && ("email" in info ==> info["email"].Str?)
  {
    StrsListsExactly(emails, f.emails);
    AssembledEmailKeys(emails, f.social, f.description, phones, f.company);
  }

  /** The two e-mail keys are present iff some address was listed, and hold the first one and the whole list. */
  lemma AssembledEmailKeys(emails: seq<string>, social: map<string, string>, description: string, phones: seq<string>, company: Dict)
    requires company.Keys <= {"cnpj", "ano_fundacao"}
    ensures var info := Assembled(emails, social, description, phones, company);
      && ("email" in info <==> emails != []) && ("emails_encontrados" in info <==> emails != [])
      && (emails != [] ==> info["email"] == Str(emails[0]) && info["emails_encontrados"] == Strs(emails))
  {
  }

  lemma AssembledDetails(f: Findings, emails: seq<string>, phones: seq<string>, info: Dict)
    requires f.company.Keys <= {"cnpj", "ano_fundacao"}
    requires info == Assembled(emails, f.social, f.description, phones, f.company)
    ensures DetailsFiled(f, info)
    ensures "redes_sociais" in info ==> info["redes_sociais"].Obj? && forall p :: p in info["redes_sociais"].fields ==> info["redes_sociais"].fields[p].Str?
  {
  }

  lemma AssembledPhones(f: Findings, emails: seq<string>, phones: seq<string>, info: Dict)
    requires f.company.Keys <= {"cnpj", "ano_fundacao"} && Listing(phones, f.phones)
    requires info == Assembled(emails, f.social, f.description, phones, f.company)
    ensures PhonesFiled(f, info)
  {
    StrsListsExactly(phones, f.phones);
    if phones != [] {
      assert info["telefones_adicionais"] == Strs(phones);
    }
  }

  lemma AssembledCompany(f: Findings, emails: seq<string>, phones: seq<string>, info: Dict)
    requires f.company.Keys <= {"cnpj", "ano_fundacao"}
    requires info == Assembled(emails, f.social, f.description, phones, f.company)
    ensures CompanyFiled(f, info)
  {
  }

  /** `_search_additional_info`: a note of the query a web search would use. */
  function SearchAdditionalInfo(name: Value, address: Value): (info: Dict)
    ensures info.Keys == {"fonte_pesquisa"}
    ensures info["fonte_pesquisa"].Str? && StartsWith(info["fonte_pesquisa"].s, "Pesquisa por: ")
    ensures name.Str? && address.Str? ==> info["fonte_pesquisa"] == Str("Pesquisa por: " + name.s + " " + address.s)
  {
    map["fonte_pesquisa" := Str("Pesquisa por: " + Display(name) + " " + Display(address))]
  }

  // ---- validation and cleaning ----

  /**
   * The regular expression the phone cleaner compiles. As written, `[^\d+()-\s]` holds the
   * range `)-\s`, which Python refuses to compile, so the first phone cleaned raises;
   * `Intended` keeps digits, whitespace and `+ ( ) -`.
   */
  datatype PhonePattern = AsWritten | Intended

  /**
   * `items` is what `for phone in v` visits: a string's characters, a list's elements, or a
   * dict's keys, each exactly once, in an order the model leaves open.
   */
  ghost predicate Iterates(v: Value, items: seq<Value>) {
    match v
    case Str(s) => items == Chars(s)
    case List(xs) => items == xs
    case Obj(m) => ListsKeys(items, m)
    case _ => false
  }

  /** `items` holds each key of `m` exactly once, as a string, and nothing else. */
  ghost predicate ListsKeys(items: seq<Value>, m: map<string, Value>) {
    && (items == [] <==> m == map[])
    && NoDuplicates(items)
    && (forall i :: 0 <= i < |items| ==> items[i].Str? && items[i].s in m)
    && (forall k :: k in m ==> Str(k) in items)
  }

  /** Iterating over `v`: None when `v` is not iterable. */
  method Iterate(v: Value) returns (items: Option<seq<Value>>)
    ensures items.None? <==> !(v.Str? || v.List? || v.Obj?)
    ensures items.Some? ==> Iterates(v, items.value)
  {
    match v
    case Str(s) => items := Some(Chars(s));
    case List(xs) => items := Some(xs);
    case Obj(m) =>
      var keys := ListOfSet(m.Keys);
      if keys == [] {
        assert m.Keys == {};
      } else {
        assert keys[0] in m;
      }
      var strs := seq(|keys|, i requires 0 <= i < |keys| => Str(keys[i]));
      forall k | k in m ensures Str(k) in strs {
        var i :| 0 <= i < |keys| && keys[i] == k;
        assert strs[i] == Str(k);
      }
      items := Some(strs);
    case _ => items := None;
  }

  /** What the intended cleaner keeps of a list of strings: each reduced to its phone characters, kept when ten or more remain. */
  function KeptPhones(xs: seq<Value>): (r: seq<Value>)
    requires forall i :: 0 <= i < |xs| ==> xs[i].Str?
    ensures |r| <= |xs| && forall i :: 0 <= i < |r| ==> r[i].Str?
  {
    if xs == [] then []
    else
      var init := KeptPhones(xs[..|xs| - 1]);
      var c := KeepPhoneChars(xs[|xs| - 1].s);
      if |c| >= 10 then init + [Str(c)] else init
  }

  /** Every kept phone is a string of ten or more phone characters, cleaned from one of the inputs. */
  lemma {:induction false} KeptPhonesAreClean(xs: seq<Value>)
    requires forall i :: 0 <= i < |xs| ==> xs[i].Str?
    ensures forall i :: 0 <= i < |KeptPhones(xs)| ==>
      var p := KeptPhones(xs)[i];
      p.Str? && |p.s| >= 10 && (forall k :: 0 <= k < |p.s| ==> IsPhoneChar(p.s[k]))
      && exists j :: 0 <= j < |xs| && p == Str(KeepPhoneChars(xs[j].s))
    decreases |xs|
  {
    if xs != [] {
      var init := xs[..|xs| - 1];
      KeptPhonesAreClean(init);
      forall i | 0 <= i < |KeptPhones(init)| ensures exists j :: 0 <= j < |xs| && KeptPhones(init)[i] == Str(KeepPhoneChars(xs[j].s)) {
        var j :| 0 <= j < |init| && KeptPhones(init)[i] == Str(KeepPhoneChars(init[j].s));
        assert init[j] == xs[j];
      }
    }
  }

  /** Every input that keeps ten or more phone characters is kept, cleaned. */
  lemma {:induction false} KeptPhonesComplete(xs: seq<Value>)
    requires forall i :: 0 <= i < |xs| ==> xs[i].Str?
    ensures forall j :: 0 <= j < |xs| && |KeepPhoneChars(xs[j].s)| >= 10 ==> Str(KeepPhoneChars(xs[j].s)) in KeptPhones(xs)
    decreases |xs|
  {
    if xs != [] {
      var init := xs[..|xs| - 1];
      KeptPhonesComplete(init);
      forall j | 0 <= j < |xs| - 1 && |KeepPhoneChars(xs[j].s)| >= 10 ensures Str(KeepPhoneChars(xs[j].s)) in KeptPhones(xs) {
        assert init[j] == xs[j];
      }
    }
  }

  /** Cleaning a listing of a dict's keys keeps every key that has ten or more phone characters. */
  lemma KeptPhonesOfAllKeys(phones: seq<Value>, m: map<string, Value>)
    requires ListsKeys(phones, m)
    ensures forall k :: k in m && |KeepPhoneChars(k)| >= 10 ==> Str(KeepPhoneChars(k)) in KeptPhones(phones)
  {
    KeptPhonesComplete(phones);
    forall k | k in m && |KeepPhoneChars(k)| >= 10 ensures Str(KeepPhoneChars(k)) in KeptPhones(phones) {
      var j :| 0 <= j < |phones| && phones[j] == Str(k);
    }
  }

  /** Cleaning strings drawn from a dict's keys keeps only cleaned keys. */
  lemma KeptPhonesOfKeys(xs: seq<Value>, m: map<string, Value>)
    requires forall i :: 0 <= i < |xs| ==> xs[i].Str? && xs[i].s in m
    ensures forall n :: 0 <= n < |KeptPhones(xs)| ==> exists k :: k in m && KeptPhones(xs)[n].s == KeepPhoneChars(k)
  {
    var kept := KeptPhones(xs);
    KeptPhonesAreClean(xs);
    forall n | 0 <= n < |kept| ensures exists k :: k in m && kept[n].s == KeepPhoneChars(k) {
      var j :| 0 <= j < |xs| && kept[n] == Str(KeepPhoneChars(xs[j].s));
    }
  }

  /** A list whose strings are already clean phones survives the intended cleaner unchanged. */
  lemma {:induction false} KeptPhonesOfClean(xs: seq<Value>)
    requires forall i :: 0 <= i < |xs| ==> xs[i].Str? && |xs[i].s| >= 10 && KeepPhoneChars(xs[i].s) == xs[i].s
    ensures KeptPhones(xs) == xs
    decreases |xs|
  {
    if xs != [] {
      KeptPhonesOfClean(xs[..|xs| - 1]);
      assert xs == xs[..|xs| - 1] + [xs[|xs| - 1]];
    }
  }

  /** Cleaning the cleaned list again changes nothing. */
  lemma KeptPhonesIdempotent(xs: seq<Value>)
    requires forall i :: 0 <= i < |xs| ==> xs[i].Str?
    ensures KeptPhones(KeptPhones(xs)) == KeptPhones(xs)
  {
    var r := KeptPhones(xs);
    KeptPhonesAreClean(xs);
    forall i | 0 <= i < |r| ensures KeepPhoneChars(r[i].s) == r[i].s {
      KeepPhoneCharsClean(r[i].s);
    }
    KeptPhonesOfClean(r);
  }

  /** A single character never makes a phone: cleaning a string's characters keeps nothing. */
  lemma {:induction false} KeptPhonesOfChars(s: string)
    ensures KeptPhones(Chars(s)) == []
    decreases |s|
  {
    if s != [] {
      KeptPhonesOfChars(s[..|s| - 1]);
      assert Chars(s)[..|s| - 1] == Chars(s[..|s| - 1]);
    }
  }

  /** `url` with a scheme: unchanged when it starts with "http", else with "https://" in front. */
  function WithScheme(url: string): (r: string)
    ensures StartsWith(r, "http")
    ensures StartsWith(url, "http") <==> r == url
    ensures |url| <= |r| && r[|r| - |url|..] == url
  {
    if StartsWith(url, "http") then url else "https://" + url
  }

  /** Every social link given a scheme. */
  function SchemedLinks(m: map<string, Value>): (r: map<string, Value>)
    requires forall p :: p in m ==> m[p].Str?
    ensures r.Keys == m.Keys && forall p :: p in r ==> r[p].Str? && StartsWith(r[p].s, "http")
  {
    map p | p in m :: Str(WithScheme(m[p].s))
  }

  /** Giving the links a scheme twice is the same as once. */
  lemma SchemedLinksIdempotent(m: map<string, Value>)
    requires forall p :: p in m ==> m[p].Str?
    ensures SchemedLinks(SchemedLinks(m)) == SchemedLinks(m)
  {
  }

  /** `for phone in v: re.sub(pattern, '', phone)` raises. */
  ghost predicate PhonesRaise(v: Value, pattern: PhonePattern) {
    match v
    case Str(s) => pattern == AsWritten && s != ""
    case List(xs) => (pattern == AsWritten && xs != []) || exists i :: 0 <= i < |xs| && !xs[i].Str?
    case Obj(m) => pattern == AsWritten && m != map[]
    case _ => true
  }

  /** Calling `.startswith` on every social link raises: the links are not a dict of strings. */
  ghost predicate SocialRaises(v: Value) {
    !v.Obj? || exists p :: p in v.fields && !v.fields[p].Str?
  }

  /** `_validate_and_clean_data(d)` raises. */
  ghost predicate CleanRaises(d: Dict, pattern: PhonePattern) {
    || ("email" in d && !d["email"].Str?)
    || ("telefones_adicionais" in d && PhonesRaise(d["telefones_adicionais"], pattern))
    || ("redes_sociais" in d && SocialRaises(d["redes_sociais"]))
  }

  /** `w` is what the cleaner made of the phone collection `v`. */
  ghost predicate PhonesCleaned(v: Value, w: Value, pattern: PhonePattern)
    requires !PhonesRaise(v, pattern)
  {
    && w.List?
    && (forall i :: 0 <= i < |w.items| ==>
          w.items[i].Str? && |w.items[i].s| >= 10 && forall k :: 0 <= k < |w.items[i].s| ==> IsPhoneChar(w.items[i].s[k]))
    && (pattern == AsWritten ==> w.items == [])
    && (v.List? ==> w.items == KeptPhones(v.items))
    && (v.Str? ==> w.items == [])
    && (v.Obj? ==> forall i :: 0 <= i < |w.items| ==> exists k :: k in v.fields && w.items[i].s == KeepPhoneChars(k))
    && (v.Obj? ==> forall k :: k in v.fields && |KeepPhoneChars(k)| >= 10 ==> Str(KeepPhoneChars(k)) in w.items)
    && (v.Obj? ==> exists keys :: ListsKeys(keys, v.fields) && w.items == KeptPhones(keys))
  }

  /**
   * `out` is what the cleaner returns for `d`: an e-mail that does not look like one is
   * dropped, the phones are cleaned, every social link gets a scheme, the rest is kept.
   */
  ghost predicate CleanedFrom(d: Dict, out: Dict, pattern: PhonePattern)
    requires !CleanRaises(d, pattern)
  {
    && out.Keys == (if "email" in d && !IsValidEmail(d["email"].s) then d.Keys - {"email"} else d.Keys)
    && (forall k :: k in out && k != "telefones_adicionais" && k != "redes_sociais" ==> out[k] == d[k])
    && ("email" in out ==> IsValidEmail(out["email"].s))
    && ("telefones_adicionais" in d ==> PhonesCleaned(d["telefones_adicionais"], out["telefones_adicionais"], pattern))
    && ("redes_sociais" in d ==> out["redes_sociais"] == Obj(SchemedLinks(d["redes_sociais"].fields)))
  }

  /** The phone loop of `_validate_and_clean_data`: fails exactly when it raises. */
  method CleanPhones(v: Value, pattern: PhonePattern) returns (r: Result<Value>)
    ensures r.Failure? <==> PhonesRaise(v, pattern)
    ensures r.Success? ==> !PhonesRaise(v, pattern) && PhonesCleaned(v, r.value, pattern)
  {
    var items := Iterate(v);
    if items.None? {
      return Failure("TypeError: object is not iterable");
    }
    var kept := CleanEach(items.value, pattern);
    if kept.Failure? {
      if pattern == AsWritten {
        IteratedRaises(v, items.value, pattern, 0);
      } else {
        var i :| 0 <= i < |items.value| && !items.value[i].Str?;
        IteratedRaises(v, items.value, pattern, i);
      }
      return Failure(kept.error);
    }
    IteratedCleaned(v, items.value, pattern);
    return Success(List(kept.value));
  }

  /** The body of the phone loop over the visited `phones`: `re.sub` on each, kept when ten or more characters remain. */
  method CleanEach(phones: seq<Value>, pattern: PhonePattern) returns (r: Result<seq<Value>>)
    ensures r.Failure? <==> (pattern == AsWritten && phones != []) || exists i :: 0 <= i < |phones| && !phones[i].Str?
    ensures r.Success? ==>
      && (pattern == AsWritten ==> phones == [])
      && (forall j :: 0 <= j < |phones| ==> phones[j].Str?)
      && r.value == KeptPhones(phones)
  {
    var kept: seq<Value> := [];
    var i := 0;
    while i < |phones|
      invariant 0 <= i <= |phones|
      invariant pattern == AsWritten ==> i == 0
      invariant forall j :: 0 <= j < i ==> phones[j].Str?
      invariant kept == KeptPhones(phones[..i])
    {
      if pattern == AsWritten {
        return Failure("re.error: bad character range )-\\s");
      }
      if !phones[i].Str? {
        assert 0 <= i < |phones| && !phones[i].Str?;
        return Failure("TypeError: expected string or bytes-like object");
      }
      var c := KeepPhoneChars(phones[i].s);
      assert phones[..i + 1][..i] == phones[..i];
      if |c| >= 10 {
        kept := kept + [Str(c)];
      }
      i := i + 1;
    }
    assert phones[..i] == phones;
    return Success(kept);
  }

  /** The loop raises on its first phone as written, and on any phone that is not a string. */
  lemma IteratedRaises(v: Value, phones: seq<Value>, pattern: PhonePattern, i: nat)
    requires Iterates(v, phones) && i < |phones| && (pattern == AsWritten || !phones[i].Str?)
    ensures PhonesRaise(v, pattern)
  {
  }

  /** A loop that ran to the end produced the cleaned collection. */
  lemma IteratedCleaned(v: Value, phones: seq<Value>, pattern: PhonePattern)
    requires Iterates(v, phones) && (pattern == AsWritten ==> phones == [])
    requires forall j :: 0 <= j < |phones| ==> phones[j].Str?
    ensures !PhonesRaise(v, pattern) && PhonesCleaned(v, List(KeptPhones(phones)), pattern)
  {
    KeptPhonesAreClean(phones);
    match v {
      case Str(s) => KeptPhonesOfChars(s);
      case List(_) =>
      case Obj(m) => IteratedKeysCleaned(m, phones, pattern);
    }
  }

  /**
   * A loop over a dict's keys that ran to the end: every kept phone is a cleaned key, every
   * key that keeps ten or more characters is kept, and the list follows the visiting order.
   */
  lemma IteratedKeysCleaned(m: map<string, Value>, phones: seq<Value>, pattern: PhonePattern)
    requires ListsKeys(phones, m) && (pattern == AsWritten ==> phones == [])
    requires forall j :: 0 <= j < |phones| ==> phones[j].Str?
    ensures !PhonesRaise(Obj(m), pattern) && PhonesCleaned(Obj(m), List(KeptPhones(phones)), pattern)
  {
    KeptPhonesAreClean(phones);
    KeptPhonesOfKeys(phones, m);
    KeptPhonesOfAllKeys(phones, m);
    assert ListsKeys(phones, m) && KeptPhones(phones) == KeptPhones(phones);
  }

  /** The social-link loop of `_validate_and_clean_data`: fails exactly when it raises. */
  method CleanSocial(v: Value) returns (r: Result<Value>)
    ensures r.Failure? <==> SocialRaises(v)
    ensures r.Success? ==> !SocialRaises(v) && r.value == Obj(SchemedLinks(v.fields))
  {
    if !v.Obj? {
      return Failure("AttributeError: object has no attribute 'items'");
    }
    var links := v.fields;
    var out := links;
    var pending := links.Keys;
    while pending != {}
      invariant pending <= links.Keys && out.Keys == links.Keys
      invariant forall p :: p in links && p !in pending ==> links[p].Str? && out[p] == Str(WithScheme(links[p].s))
      invariant forall p :: p in pending ==> out[p] == links[p]
      decreases |pending|
    {
      var p :| p in pending;
      if !out[p].Str? {
        return Failure("AttributeError: object has no attribute 'startswith'");
      }
      if !StartsWith(out[p].s, "http") {
        out := out[p := Str("https://" + out[p].s)];
      }
      pending := pending - {p};
    }
    assert out == SchemedLinks(links);
    return Success(Obj(out));
  }

  /** `_validate_and_clean_data`: fails exactly when the Python code raises. */
  method ValidateAndCleanData(data: Dict, pattern: PhonePattern) returns (r: Result<Dict>)
    ensures r.Failure? <==> CleanRaises(data, pattern)
    ensures r.Success? ==> !CleanRaises(data, pattern) && CleanedFrom(data, r.value, pattern)
  {
    var cleaned := data;
    if "email" in cleaned {
      var email := cleaned["email"];
      if !email.Str? {
        return Failure("TypeError: expected string or bytes-like object");
      }
      if !IsValidEmail(email.s) {
        cleaned := cleaned - {"email"};
      }
    }
    if "telefones_adicionais" in cleaned {
      var phones := CleanPhones(cleaned["telefones_adicionais"], pattern);
      if phones.Failure? {
        return Failure(phones.error);
      }
      cleaned := cleaned["telefones_adicionais" := phones.value];
    }
    if "redes_sociais" in cleaned {
      var social := CleanSocial(cleaned["redes_sociais"]);
      if social.Failure? {
        return Failure(social.error);
      }
      cleaned := cleaned["redes_sociais" := social.value];
    }
    return Success(cleaned);
  }

  // ---- enrichment ----

  /**
   * The dict `enrich_contact_info` hands to the cleaner: a copy of the lead, updated with the
   * website's findings when it has a website and with the search note when it has both a name
   * and an address. An update overwrites what the lead already held under the same key.
   */
  function Merge(lead: Dict, info: Dict): (merged: Dict)
    ensures forall k :: k in lead ==> k in merged
    ensures Truthy(Get(lead, "website")) ==> forall k :: k in info && k != "fonte_pesquisa" ==> k in merged && merged[k] == info[k]
    ensures Truthy(Get(lead, "nome")) && Truthy(Get(lead, "endereco")) ==>
      "fonte_pesquisa" in merged && merged["fonte_pesquisa"] == SearchAdditionalInfo(lead["nome"], lead["endereco"])["fonte_pesquisa"]
    ensures forall k :: k in merged && k != "fonte_pesquisa" && !(Truthy(Get(lead, "website")) && k in info) ==> k in lead && merged[k] == lead[k]
    ensures "fonte_pesquisa" in merged && !(Truthy(Get(lead, "nome")) && Truthy(Get(lead, "endereco"))) ==>
      (Truthy(Get(lead, "website")) && "fonte_pesquisa" in info) || "fonte_pesquisa" in lead
  {
    var withSite := if Truthy(Get(lead, "website")) then lead + info else lead;
    if Truthy(Get(lead, "nome")) && Truthy(Get(lead, "endereco"))
    then withSite + SearchAdditionalInfo(lead["nome"], lead["endereco"])
    else withSite
  }

  /**
   * `r` is what `enrich_contact_info(lead)` returns when the extractors find `site` on the
   * lead's website: the lead unchanged when cleaning the merged dict raises, otherwise the
   * cleaned merge.
   */
  ghost predicate EnrichOutcome(lead: Dict, site: Option<Findings>, pattern: PhonePattern, r: Dict) {
    exists info :: && (Truthy(Get(lead, "website")) ==> SiteInfo(site, info))
                   && (if CleanRaises(Merge(lead, info), pattern) then r == lead
                       else CleanedFrom(Merge(lead, info), r, pattern))
  }

  /** `enrich_contact_info`. */
  method EnrichContactInfo(lead: Dict, fetch: Fetch, pattern: PhonePattern) returns (r: Dict)
    ensures EnrichOutcome(lead, FindingsOf(fetch), pattern, r)
  {
    var enriched := lead;
    ghost var info: Dict := map[];
    if Truthy(Get(lead, "website")) {
      var websiteInfo := ExtractWebsiteInfo(fetch);
      enriched := enriched + websiteInfo;
      info := websiteInfo;
    }
    if Truthy(Get(lead, "nome")) && Truthy(Get(lead, "endereco")) {
      enriched := enriched + SearchAdditionalInfo(lead["nome"], lead["endereco"]);
    }
    assert enriched == Merge(lead, info);
    var cleaned := ValidateAndCleanData(enriched, pattern);
    if cleaned.Failure? {
      return lead;
    }
    return cleaned.value;
  }

  /** The lead's own fields have the types the cleaner expects. */
  predicate WellTyped(lead: Dict) {
    && ("email" in lead ==> lead["email"].Str?)
    && ("telefones_adicionais" in lead ==>
          lead["telefones_adicionais"].List? && forall i :: 0 <= i < |lead["telefones_adicionais"].items| ==> lead["telefones_adicionais"].items[i].Str?)
    && ("redes_sociais" in lead ==>
          lead["redes_sociais"].Obj? && forall p :: p in lead["redes_sociais"].fields ==> lead["redes_sociais"].fields[p].Str?)
  }

  /** Findings, when there are any, are of the kind every page yields. */
  ghost predicate WellFormedSite(site: Option<Findings>) {
    site.Some? ==> WellFormedFindings(site.value)
  }

  lemma FindingsOfWellFormed(fetch: Fetch)
    ensures WellFormedSite(FindingsOf(fetch))
  {
    if fetch.Fetched? {
      PageFindingsWellFormed(fetch.page);
    }
  }

  /** The website findings an enrichment outcome was built from. */
  lemma OutcomeInfo(lead: Dict, site: Option<Findings>, pattern: PhonePattern, r: Dict) returns (info: Dict)
    requires WellFormedSite(site) && EnrichOutcome(lead, site, pattern, r)
    ensures Truthy(Get(lead, "website")) && site.None? ==> info == map[]
    ensures Truthy(Get(lead, "website")) && site.Some? ==> Filed(site.value, info)
    ensures CleanRaises(Merge(lead, info), pattern) ==> r == lead
    ensures !CleanRaises(Merge(lead, info), pattern) ==> CleanedFrom(Merge(lead, info), r, pattern)
  {
    info :| && (Truthy(Get(lead, "website")) ==> SiteInfo(site, info))
           && (if CleanRaises(Merge(lead, info), pattern) then r == lead
               else CleanedFrom(Merge(lead, info), r, pattern));
    if Truthy(Get(lead, "website")) && site.Some? {
      SiteInfoFiled(site.value, info);
    }
  }

  /** Fields enrichment never touches come back as the lead had them, whatever happens. */
  lemma EnrichKeepsOtherFields(lead: Dict, site: Option<Findings>, pattern: PhonePattern, r: Dict)
    requires WellFormedSite(site) && EnrichOutcome(lead, site, pattern, r)
    ensures forall k :: k in lead && k !in WebsiteKeys && k != "fonte_pesquisa" ==> k in r && r[k] == lead[k]
  {
    var info := OutcomeInfo(lead, site, pattern, r);
  }

  /** Unless it fell back to the lead, an enriched record only holds an e-mail that looks like one. */
  lemma EnrichedEmailIsValid(lead: Dict, site: Option<Findings>, pattern: PhonePattern, r: Dict)
    requires WellFormedSite(site) && EnrichOutcome(lead, site, pattern, r)
    ensures r == lead || ("email" in r ==> r["email"].Str? && IsValidEmail(r["email"].s))
  {
    var info := OutcomeInfo(lead, site, pattern, r);
  }

  /** Unless it fell back to the lead, a lead with a name and an address gets the search note. */
  lemma EnrichAddsSearchNote(lead: Dict, site: Option<Findings>, pattern: PhonePattern, r: Dict)
    requires WellFormedSite(site) && EnrichOutcome(lead, site, pattern, r)
    requires Truthy(Get(lead, "nome")) && Truthy(Get(lead, "endereco"))
    ensures r == lead || ("fonte_pesquisa" in r && r["fonte_pesquisa"] == SearchAdditionalInfo(lead["nome"], lead["endereco"])["fonte_pesquisa"])
  {
    var info := OutcomeInfo(lead, site, pattern, r);
    var merged := Merge(lead, info);
    if !CleanRaises(merged, pattern) {
      CleanedKeepsPlainKey(merged, r, pattern, "fonte_pesquisa");
    }
  }

  /** A key the cleaner does not look at keeps its value. */
  lemma CleanedKeepsPlainKey(d: Dict, out: Dict, pattern: PhonePattern, k: string)
    requires !CleanRaises(d, pattern) && CleanedFrom(d, out, pattern)
    requires k in d && k != "email" && k != "telefones_adicionais" && k != "redes_sociais"
    ensures k in out && out[k] == d[k]
  {
  }

  /** A lead whose website could not be fetched is only cleaned: nothing from a website is added. */
  lemma FetchFailureAddsNoSiteKeys(lead: Dict, pattern: PhonePattern, r: Dict)
    requires EnrichOutcome(lead, None, pattern, r)
    ensures forall k :: k in r && k != "fonte_pesquisa" ==> k in lead
  {
    var info := OutcomeInfo(lead, None, pattern, r);
  }

  /**
   * As written, a website that shows any phone number makes the cleaner raise, so the
   * enrichment is discarded and the lead comes back unchanged.
   */
  lemma AsWrittenDiscardsEnrichment(lead: Dict, f: Findings, r: Dict)
    requires WellFormedFindings(f) && EnrichOutcome(lead, Some(f), AsWritten, r)
    requires Truthy(Get(lead, "website")) && f.phones != {}
    ensures r == lead
  {
    var info := OutcomeInfo(lead, Some(f), AsWritten, r);
    var x :| x in f.phones;
    var phones := Merge(lead, info)["telefones_adicionais"];
    assert Str(x) in phones.items;
    assert PhonesRaise(phones, AsWritten);
  }

  /** With the intended pattern, merging the website's findings into a well-typed lead leaves nothing the cleaner raises on. */
  lemma IntendedDoesNotRaise(lead: Dict, info: Dict)
    requires WellTyped(lead) && WellTyped(info)
    ensures !CleanRaises(Merge(lead, info), Intended)
  {
    var merged := Merge(lead, info);
    if "email" in merged {
      assert merged["email"].Str?;
    }
    if "telefones_adicionais" in merged {
      var v := merged["telefones_adicionais"];
      assert v.List? && forall i :: 0 <= i < |v.items| ==> v.items[i].Str?;
    }
    if "redes_sociais" in merged {
      var v := merged["redes_sociais"];
      assert v.Obj? && forall p :: p in v.fields ==> v.fields[p].Str?;
    }
  }

  /** With the intended pattern, a well-typed lead whose website was fetched is never discarded: the result is the cleaned merge. */
  lemma IntendedIsCleanedMerge(lead: Dict, f: Findings, r: Dict) returns (info: Dict)
    requires WellFormedFindings(f) && EnrichOutcome(lead, Some(f), Intended, r)
    requires WellTyped(lead) && Truthy(Get(lead, "website"))
    ensures Filed(f, info) && !CleanRaises(Merge(lead, info), Intended)
    ensures CleanedFrom(Merge(lead, info), r, Intended)
  {
    info := OutcomeInfo(lead, Some(f), Intended, r);
    IntendedDoesNotRaise(lead, info);
  }

  /** With the intended pattern, every phone found on the website survives cleaning. */
  lemma IntendedKeepsSitePhones(lead: Dict, f: Findings, r: Dict)
    requires WellFormedFindings(f) && EnrichOutcome(lead, Some(f), Intended, r)
    requires WellTyped(lead) && Truthy(Get(lead, "website")) && f.phones != {}
    ensures "telefones_adicionais" in r && ListsExactly(r["telefones_adicionais"], f.phones)
  {
    var info := IntendedIsCleanedMerge(lead, f, r);
    CleanedMergeKeepsSitePhones(lead, f, info, r);
  }

  lemma CleanedMergeKeepsSitePhones(lead: Dict, f: Findings, info: Dict, r: Dict)
    requires WellFormedFindings(f) && f.phones != {} && PhonesFiled(f, info) && Truthy(Get(lead, "website"))
    requires !CleanRaises(Merge(lead, info), Intended) && CleanedFrom(Merge(lead, info), r, Intended)
    ensures "telefones_adicionais" in r && ListsExactly(r["telefones_adicionais"], f.phones)
  {
    var merged := Merge(lead, info);
    assert "telefones_adicionais" in merged && merged["telefones_adicionais"] == info["telefones_adicionais"];
    CleanedKeepsCleanPhones(merged, r, f);
  }

  /** Phones listed from well-formed findings come out of the intended cleaner as they went in. */
  lemma CleanedKeepsCleanPhones(d: Dict, out: Dict, f: Findings)
    requires WellFormedFindings(f) && "telefones_adicionais" in d && ListsExactly(d["telefones_adicionais"], f.phones)
    requires !CleanRaises(d, Intended) && CleanedFrom(d, out, Intended)
    ensures "telefones_adicionais" in out && out["telefones_adicionais"] == d["telefones_adicionais"]
  {
    var v := d["telefones_adicionais"];
    SitePhonesAreClean(f, v);
    CleanListSurvives(v, out["telefones_adicionais"]);
  }

  /** The phones listed from well-formed findings are each clean and at least ten characters long. */
  lemma SitePhonesAreClean(f: Findings, v: Value)
    requires WellFormedFindings(f) && ListsExactly(v, f.phones)
    ensures forall i :: 0 <= i < |v.items| ==> v.items[i].Str? && |v.items[i].s| >= 10 && KeepPhoneChars(v.items[i].s) == v.items[i].s
  {
    forall i | 0 <= i < |v.items| ensures v.items[i].Str? && |v.items[i].s| >= 10 && KeepPhoneChars(v.items[i].s) == v.items[i].s {
      assert v.items[i].s in f.phones;
    }
  }

  /** A list of clean phones comes out of the intended cleaner as it went in. */
  lemma CleanListSurvives(v: Value, w: Value)
    requires v.List? && forall i :: 0 <= i < |v.items| ==> v.items[i].Str? && |v.items[i].s| >= 10 && KeepPhoneChars(v.items[i].s) == v.items[i].s
    requires !PhonesRaise(v, Intended) && PhonesCleaned(v, w, Intended)
    ensures w == v
  {
    KeptPhonesOfClean(v.items);
  }

  /**
   * With the intended pattern, the website's description and social links replace the lead's
   * (each link with a scheme), and the lead's e-mail gives way to one found on the site.
   */
  lemma IntendedFilesSiteDetails(lead: Dict, f: Findings, r: Dict)
    requires WellFormedFindings(f) && EnrichOutcome(lead, Some(f), Intended, r)
    requires WellTyped(lead) && Truthy(Get(lead, "website"))
    ensures f.description != "" ==> "descricao" in r && r["descricao"] == Str(f.description)
    ensures f.social != map[] ==>
      && "redes_sociais" in r && r["redes_sociais"].Obj?
      && r["redes_sociais"].fields.Keys == f.social.Keys
      && forall p :: p in r["redes_sociais"].fields ==> r["redes_sociais"].fields[p].Str? && StartsWith(r["redes_sociais"].fields[p].s, "http")
    ensures f.emails != {} && "email" in r ==> r["email"].Str? && r["email"].s in f.emails
  {
    var info := IntendedIsCleanedMerge(lead, f, r);
    CleanedMergeFilesDetails(lead, f, info, r);
    CleanedMergeFilesEmail(lead, f, info, r);
  }

  lemma CleanedMergeFilesDetails(lead: Dict, f: Findings, info: Dict, r: Dict)
    requires DetailsFiled(f, info) && Truthy(Get(lead, "website"))
    requires !CleanRaises(Merge(lead, info), Intended) && CleanedFrom(Merge(lead, info), r, Intended)
    ensures f.description != "" ==> "descricao" in r && r["descricao"] == Str(f.description)
    ensures f.social != map[] ==>
      && "redes_sociais" in r && r["redes_sociais"].Obj?
      && r["redes_sociais"].fields.Keys == f.social.Keys
      && forall p :: p in r["redes_sociais"].fields ==> r["redes_sociais"].fields[p].Str? && StartsWith(r["redes_sociais"].fields[p].s, "http")
  {
    var d := Merge(lead, info);
    if f.description != "" {
      assert d["descricao"] == Str(f.description);
      CleanedKeepsPlainKey(d, r, Intended, "descricao");
    }
    if f.social != map[] {
      assert d["redes_sociais"] == StrObj(f.social);
      CleanedSchemesLinks(d, r, f.social);
    }
  }

  /** Cleaning gives every social link a scheme and keeps the platforms. */
  lemma CleanedSchemesLinks(d: Dict, out: Dict, social: map<string, string>)
    requires !CleanRaises(d, Intended) && CleanedFrom(d, out, Intended)
    requires "redes_sociais" in d && d["redes_sociais"] == StrObj(social)
    ensures "redes_sociais" in out && out["redes_sociais"].Obj?
    ensures out["redes_sociais"].fields.Keys == social.Keys
    ensures forall p :: p in out["redes_sociais"].fields ==> out["redes_sociais"].fields[p].Str? && StartsWith(out["redes_sociais"].fields[p].s, "http")
  {
  }

  lemma CleanedMergeFilesEmail(lead: Dict, f: Findings, info: Dict, r: Dict)
    requires EmailsFiled(f, info) && Truthy(Get(lead, "website"))
    requires !CleanRaises(Merge(lead, info), Intended) && CleanedFrom(Merge(lead, info), r, Intended)
    ensures f.emails != {} && "email" in r ==> r["email"].Str? && r["email"].s in f.emails
  {
    if f.emails != {} && "email" in r {
      var list := info["emails_encontrados"];
      assert list.items[0] in list.items;
      assert Merge(lead, info)["email"] == info["email"];
    }
  }

  // ---- the tool entry point ----

  /** The error the tool reports for input that is not valid JSON. */
  const InvalidInput: Value := Obj(map["erro" := Str("Formato de dados inválido")])

  /**
   * The argument `_run` receives: a string, with what `json.loads` makes of it (None when it
   * is not valid JSON), or a value that is not a string.
   */
  datatype RunInput = JsonText(parsed: Option<Value>) | NotText(arg: Value)

  /** The lead `_run` passes on to the enrichment. */
  function LeadOf(input: RunInput): Option<Value> {
    match input
    case JsonText(parsed) => parsed
    case NotText(arg) => Some(arg)
  }

  /**
   * `_run`, with the JSON text it returns given as the value it encodes. A dict is enriched;
   * a list survives the `.copy()` and then fails inside the guarded block, so it comes back
   * as it was; any other value has no `.copy()` and raises.
   */
  method Run(input: RunInput, fetch: Fetch, pattern: PhonePattern) returns (out: Result<Value>)
    requires input.NotText? ==> !input.arg.Str?
    ensures input == JsonText(None) ==> out == Success(InvalidInput)
    ensures LeadOf(input).Some? && LeadOf(input).value.Obj? ==>
      out.Success? && out.value.Obj? && EnrichOutcome(LeadOf(input).value.fields, FindingsOf(fetch), pattern, out.value.fields)
    ensures LeadOf(input).Some? && LeadOf(input).value.List? ==> out == Success(LeadOf(input).value)
    ensures LeadOf(input).Some? && !LeadOf(input).value.Obj? && !LeadOf(input).value.List? ==> out.Failure?
  {
    var lead: Value;
    match input {
      case JsonText(parsed) =>
        if parsed.None? {
          return Success(InvalidInput);
        }
        lead := parsed.value;
      case NotText(arg) =>
        lead := arg;
    }
    match lead {
      case Obj(fields) =>
        var enriched := EnrichContactInfo(fields, fetch, pattern);
        return Success(Obj(enriched));
      case List(_) =>
        return Success(lead);
      case _ =>
        return Failure("AttributeError: object has no attribute 'copy'");
    }
  }
}
