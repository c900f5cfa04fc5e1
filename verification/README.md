# crew-lead lead acquisition and enrichment, modelled in Dafny

crew-lead finds businesses on Google Maps and enriches each one into a sales lead.
This project models the three pieces of it that do concrete work.

- **`Config`** (`config.dfy`): the settings read from the environment when the module is imported, and `Config.validate`.
- **`GoogleMapsSearchTool`** (`maps_search.dfy`) finds businesses in one of two ways:
  - through the Places API (geocode, nearby search, place details) when an API key is set;
  - otherwise by driving a browser over the Maps search page and clicking each result.

  Both paths build the same twelve-field business record. Opening hours and photo URLs are formatted on the way.
- **`DataEnrichmentTool`** takes a lead record (a dict) and does the following:
  - fetches the lead's website;
  - extracts from the page its e-mails, social links, a description, extra phone numbers, the CNPJ and the founding year;
  - adds a search note;
  - validates and cleans the result.

  If anything raises along the way, it gives back the lead unchanged. This tool is split across three files:
  - `patterns.dfy`: recognisers for its regular expressions;
  - `page_extraction.dfy`: the page extractors;
  - `enrichment.dfy`: assembly, cleaning, `enrich_contact_info` and `_run`.

The shared modules are:
- `wrappers.dfy`: `Option` and `Result`, plus folds over sequences of them.
- `text.dfy`: Python string functions (`split`, `join`, `strip`, `int`, `str`).
- `values.dfy`: the JSON-like values the tools pass around, and the Python operations on them (`get`, `[]`, `in`, `join`, truthiness).

Python dicts are Dafny `map`s. A Python exception is a `Failure` that `:-` propagates, just as an unguarded call does. The original catches exceptions in `try`/`except` blocks; the model states those places explicitly.

The model follows the code wherever the repository's design description says otherwise:
- Enrichment uses `dict.update`, so it overwrites lead fields of the same name (`DataEnrichment.Merge`).
- A failing detail fetch on the API path aborts the whole search and yields `[]`. The record is not merely skipped.
- An unknown location is caught and yields `[]`. It does not propagate.
- `time.sleep(Config.SEARCH_DELAY)` runs after each API result, and on the scraping path after each hit whose click worked: a failed click `continue`s past the sleep. A negative delay makes the sleep raise, so the API search then yields `[]` whenever there was a result, and scraping yields `[]` whenever a click worked (when every click fails, the loop completes with no records anyway).
- A description taken from a meta tag is not truncated. Only the about-block and paragraph fallbacks are.
- Set order is left open.

## Model

| member | source | states |
|---|---|---|
| Config.LoadSettings | config.py:11-40 | Loading succeeds iff both integer settings parse. The API keys default to "", the flags are "true" in any case, and the integers are the parsed values. |
| Config.EnvFlagMeaning | config.py:28 | An unset flag is on. A set flag is on iff its text equals "true" ignoring case. |
| Config.EnvFlagOfPythonBool | config.py:34 | Writing Python's `str(b)` into the flag reads back as `b`. |
| Config.EnvIntDefaults | config.py:35-36 | MAX_RESULTS_PER_SEARCH defaults to 50 and SEARCH_DELAY to 2. Any integer written with `str` reads back as itself. |
| Text.ParseIntOfIntToString | config.py:35-36 | `int(str(n)) == n` for every integer, negatives included. |
| Config.Missing | config.py:50-53 | The missing names are exactly the required names whose setting is empty, at most as many as were required. |
| Config.MissingAppend | config.py:51-53 | Checking one more name appends it iff its setting is empty. |
| Config.Validate | config.py:42-58 | Succeeds with true iff both keys are non-empty. Otherwise the ValueError message is the fixed prefix plus the missing names joined by ", ". |
| Config.MissingOrder | config.py:45-53 | The missing names come in the order OPENROUTER_API_KEY, GOOGLE_MAPS_API_KEY. |
| Config.BothMissingMessage | config.py:55-56 | With both keys empty, the message names both, separated by ", ". |
| Patterns.DashFour | tools/data_enrichment_tool.py:174-176 | A `-?\d{4}` match ends at least four characters later and holds only phone characters. |
| Patterns.Subscriber | tools/data_enrichment_tool.py:174-176 | A `\d{4,5}-?\d{4}` match spans at least eight phone characters. |
| Patterns.SpacedSubscriber | tools/data_enrichment_tool.py:174-176 | A `\s?\d{4,5}-?\d{4}` match spans at least eight phone characters. |
| Patterns.AreaAndSubscriber | tools/data_enrichment_tool.py:175-176 | A `\d{2}\s?\d{4,5}-?\d{4}` match spans at least ten phone characters. |
| Patterns.PhoneAt | tools/data_enrichment_tool.py:173-177 | Any of the three phone patterns matches at least ten characters, all digits, `+ ( ) -` or whitespace. |
| Patterns.FindPhones | tools/data_enrichment_tool.py:180-182 | Every phone `re.findall` returns is a piece of the text, at least ten phone characters long. |
| Patterns.FindPhonesNone | tools/data_enrichment_tool.py:180-182 | `re.findall` of one phone pattern finds nothing exactly when the pattern matches at no position. |
| Patterns.FindPhonesLeftmost | tools/data_enrichment_tool.py:180-182 | The first phone found is the match at the leftmost matching position, and the search resumes where that match ends. |
| Patterns.KeepPhoneChars | tools/data_enrichment_tool.py:241 | The intended cleaner keeps only phone characters and never lengthens the string. |
| Patterns.KeepPhoneCharsAppend | tools/data_enrichment_tool.py:241 | Cleaning works character by character: a concatenation cleans to the concatenation of the cleanings. |
| Patterns.KeepPhoneCharsOne | tools/data_enrichment_tool.py:241 | One character survives exactly when it is a digit, whitespace or one of `+ ( ) -`. |
| Patterns.KeepPhoneCharsClean | tools/data_enrichment_tool.py:241 | Cleaning a string of phone characters leaves it unchanged. |
| Patterns.FoundPhonesAreClean | tools/data_enrichment_tool.py:168-184 | Each phone found is at least ten characters long and already clean. |
| Patterns.FindCnpjLeftmost | tools/data_enrichment_tool.py:191-194 | The CNPJ search reports the leftmost match, and none only when the pattern occurs nowhere. |
| Patterns.SpaceRunEnd | tools/data_enrichment_tool.py:197 | `\s+` takes the whole whitespace run. |
| Patterns.SpacedYear | tools/data_enrichment_tool.py:197 | The captured year is four digits. |
| Patterns.YearAt | tools/data_enrichment_tool.py:197-200 | Either alternative captures four digits. |
| Patterns.FindYearLeftmost | tools/data_enrichment_tool.py:197-200 | The reported year comes from the leftmost position where the pattern matches. |
| Patterns.FindYearNone | tools/data_enrichment_tool.py:197-200 | No year is reported iff the pattern matches nowhere. |
| Patterns.YearAtEnd | tools/data_enrichment_tool.py:197 | Nothing matches at the end of the text. |
| Patterns.CharIndex | tools/data_enrichment_tool.py:232 | It finds the first occurrence of a character, and none only when there is none. |
| Patterns.ValidEmailIsShape | tools/data_enrichment_tool.py:232 | The e-mail check accepts exactly `local@domain.tld` with one `@` and non-empty parts. |
| PageExtraction.ListOfSet | tools/data_enrichment_tool.py:184 | `list(set)` holds each element exactly once. |
| PageExtraction.MailtoAddressesSnoc | tools/data_enrichment_tool.py:114-116 | One more anchor adds its address iff it is a mailto link. |
| PageExtraction.MailtoContributesAddress | tools/data_enrichment_tool.py:113-116 | A `mailto:` link contributes the address after the prefix. |
| PageExtraction.CollectAddresses | tools/data_enrichment_tool.py:104-116 | The set gathered is the text matches plus the mailto addresses. |
| PageExtraction.DropPlaceholders | tools/data_enrichment_tool.py:119-120 | Each address is kept once, iff it is not a placeholder. |
| PageExtraction.EmailSetSources | tools/data_enrichment_tool.py:107-116 | When the text matches are pieces of the page text, every kept address is a piece of the text or a `mailto:` link's address, and never a placeholder. |
| PageExtraction.FindEmails | tools/data_enrichment_tool.py:102-122 | The result lists each found address once, and no placeholder in any capitalisation. |
| PageExtraction.PlatformFrom | tools/data_enrichment_tool.py:141-144 | A reported platform is one of the six, and the href matches its pattern. None means that no platform from there on matches. |
| PageExtraction.PlatformFromFirst | tools/data_enrichment_tool.py:141-144 | An href is filed under a platform only if no earlier platform matches it (the `break`). |
| PageExtraction.Hrefs | tools/data_enrichment_tool.py:139-140 | No more hrefs than anchors. |
| PageExtraction.HrefsExactly | tools/data_enrichment_tool.py:139-140 | An href is listed iff some anchor carries it: only anchors with an href are visited, and every one of them is. |
| PageExtraction.HrefsAppend | tools/data_enrichment_tool.py:139-140 | The hrefs of two runs of anchors are those of the first, then those of the second, so document order is kept. |
| PageExtraction.HrefsOne | tools/data_enrichment_tool.py:139-140 | One anchor contributes its href if it has one, and nothing otherwise. |
| PageExtraction.FiledMapKeys | tools/data_enrichment_tool.py:139-145 | Filing entries in order: a key is present iff some entry is written under it. |
| PageExtraction.FiledMapLastWins | tools/data_enrichment_tool.py:139-145 | The value under a key is that of the last entry written under it. |
| PageExtraction.SocialLinksSnoc | tools/data_enrichment_tool.py:139-145 | One more href overwrites its platform's entry. |
| PageExtraction.SocialLinksKeys | tools/data_enrichment_tool.py:124-146 | Only the six platforms appear, each iff some href is filed under it. |
| PageExtraction.SocialLinksLastWins | tools/data_enrichment_tool.py:139-145 | A platform's link is the raw href of the last link filed under it. |
| PageExtraction.FindSocialMedia | tools/data_enrichment_tool.py:124-146 | The loop builds exactly the dict of hrefs filed under their first matching platform. |
| PageExtraction.DescriptionMetaFrom | tools/data_enrichment_tool.py:151 | It finds the first meta tag named "description", and none only when there is none. |
| PageExtraction.AboutBlockFrom | tools/data_enrichment_tool.py:156-157 | It finds the first div/section mentioning sobre/about/quem somos, and none only when there is none. |
| PageExtraction.CompanyDescription | tools/data_enrichment_tool.py:148-166 | Precedence: the meta content (whole, "" if absent), else an about block cut to 500, else the first paragraph cut to 300, else "". |
| PageExtraction.DescriptionBounds | tools/data_enrichment_tool.py:156-164 | Without a meta tag the description is at most 500 characters. Without an about block too, it is at most 300. |
| PageExtraction.FindAdditionalPhones | tools/data_enrichment_tool.py:168-184 | The result lists every match of the three patterns exactly once, each a piece of the text of at least ten characters. |
| PageExtraction.PhoneSetMember | tools/data_enrichment_tool.py:179-184 | A found phone is a piece of the text of at least ten characters. |
| PageExtraction.CompanyInfo | tools/data_enrichment_tool.py:186-202 | `cnpj` is present iff the pattern occurs, and is then its leftmost match. `ano_fundacao` is present iff a year pattern occurs, and is then the four digits captured at the leftmost matching position. |
| PageExtraction.CompanyInfoKeys | tools/data_enrichment_tool.py:188-201 | Only `cnpj` and `ano_fundacao` are added. |
| PageExtraction.FoundPhoneSetIsClean | tools/data_enrichment_tool.py:168-184 | Every found phone is clean and at least ten characters long. |
| PageExtraction.PageFindingsWellFormed | tools/data_enrichment_tool.py:168-202 | The findings of any page have clean phones and only the two company keys. |
| DataEnrichment.StrsListsExactly | tools/data_enrichment_tool.py:70-72 | A listing of a set becomes a list value holding each element once. It is non-empty iff the set is. |
| DataEnrichment.Assemble | tools/data_enrichment_tool.py:60-91 | The conditional updates build the assembled website dict. |
| DataEnrichment.ExtractWebsiteInfo | tools/data_enrichment_tool.py:58-100 | A failed fetch gives {}. Otherwise it gives the dict assembled from the page's findings, for some order of the e-mail and phone sets. |
| DataEnrichment.SiteInfoFiled | tools/data_enrichment_tool.py:68-91 | Every finding lands under its key exactly when it is non-empty, and no other key appears. |
| DataEnrichment.AssembledEmails | tools/data_enrichment_tool.py:69-72 | `email` and `emails_encontrados` are present iff addresses were found. `email` is the list's first element. |
| DataEnrichment.AssembledEmailKeys | tools/data_enrichment_tool.py:70-72 | The two e-mail keys are present iff the list is non-empty, holding its first element and the list. |
| DataEnrichment.AssembledDetails | tools/data_enrichment_tool.py:74-82 | `redes_sociais` and `descricao` are present iff found, as found. |
| DataEnrichment.AssembledPhones | tools/data_enrichment_tool.py:84-87 | `telefones_adicionais` is present iff phones were found, listing each once. |
| DataEnrichment.AssembledCompany | tools/data_enrichment_tool.py:89-91 | The company facts are copied as found, and nothing outside the website keys appears. |
| DataEnrichment.SearchAdditionalInfo | tools/data_enrichment_tool.py:204-223 | Exactly one key, `fonte_pesquisa` = "Pesquisa por: " + name + " " + address. |
| DataEnrichment.Iterate | tools/data_enrichment_tool.py:239 | `for x in v` visits a string's characters, a list's items, or each of a dict's keys exactly once. Anything else is not iterable. |
| DataEnrichment.KeptPhones | tools/data_enrichment_tool.py:238-244 | The intended cleaner keeps at most as many strings as it was given. |
| DataEnrichment.KeptPhonesAreClean | tools/data_enrichment_tool.py:238-244 | Each kept phone has at least ten phone characters and is the cleaned form of an input. |
| DataEnrichment.KeptPhonesComplete | tools/data_enrichment_tool.py:239-244 | Every input that keeps ten or more phone characters is in the result, cleaned. |
| DataEnrichment.KeptPhonesOfKeys | tools/data_enrichment_tool.py:239-244 | Cleaning a dict's keys keeps only cleaned keys. |
| DataEnrichment.KeptPhonesOfClean | tools/data_enrichment_tool.py:238-244 | Clean phones of ten or more characters pass unchanged. |
| DataEnrichment.KeptPhonesIdempotent | tools/data_enrichment_tool.py:238-244 | Cleaning twice is cleaning once. |
| DataEnrichment.KeptPhonesOfChars | tools/data_enrichment_tool.py:238-244 | Iterating a string yields single characters, and none survives. |
| DataEnrichment.WithScheme | tools/data_enrichment_tool.py:249-250 | The result starts with "http". It is unchanged iff the input already did, and the input is its suffix. |
| DataEnrichment.SchemedLinks | tools/data_enrichment_tool.py:247-250 | The same platforms are kept, and every link starts with "http". |
| DataEnrichment.SchemedLinksIdempotent | tools/data_enrichment_tool.py:247-250 | Adding schemes twice is adding them once. |
| DataEnrichment.CleanPhones | tools/data_enrichment_tool.py:235-244 | Fails iff the loop raises. Otherwise the result is the cleaned list, which is empty as written. |
| DataEnrichment.CleanEach | tools/data_enrichment_tool.py:238-244 | The loop body over the visited phones fails iff the pattern is the as-written one and there is a phone, or some phone is not a string. Otherwise it returns the cleaned list. |
| DataEnrichment.IteratedRaises | tools/data_enrichment_tool.py:239-241 | As written, the first phone raises. So does any non-string phone. |
| DataEnrichment.IteratedCleaned | tools/data_enrichment_tool.py:238-244 | A loop that completes yields the cleaned collection. For a dict, the list is the cleaning of its keys in the order the loop visits them. |
| DataEnrichment.IteratedKeysCleaned | tools/data_enrichment_tool.py:238-244 | The dict case of a completed loop: every kept phone is a cleaned key, every key that keeps ten or more phone characters is kept, and the list is the cleaning of the keys in the order the loop visits them. |
| DataEnrichment.CleanSocial | tools/data_enrichment_tool.py:246-250 | Fails iff the links are not a dict of strings. Otherwise every link gets a scheme. |
| DataEnrichment.ValidateAndCleanData | tools/data_enrichment_tool.py:225-252 | Fails iff the code raises. Otherwise an invalid e-mail is dropped, phones are cleaned, links get schemes and all else is kept. |
| DataEnrichment.Merge | tools/data_enrichment_tool.py:33-47 | The lead's keys stay. With a website, the site's findings overwrite. With a name and an address, the note is added. Nothing else changes. |
| DataEnrichment.EnrichContactInfo | tools/data_enrichment_tool.py:23-56 | The result is the lead itself when cleaning the merge raises, and otherwise the cleaned merge. |
| DataEnrichment.FindingsOfWellFormed | tools/data_enrichment_tool.py:58-100 | Whatever is fetched, the findings are well formed. |
| DataEnrichment.OutcomeInfo | tools/data_enrichment_tool.py:33-56 | An outcome is built from website info that files the findings key by key, or from {} when the fetch failed. |
| DataEnrichment.EnrichKeepsOtherFields | tools/data_enrichment_tool.py:33-56 | Fields outside the website keys and the note always come back unchanged. |
| DataEnrichment.EnrichedEmailIsValid | tools/data_enrichment_tool.py:229-233 | Unless the lead came back unchanged, any e-mail in the result passes the e-mail check. |
| DataEnrichment.EnrichAddsSearchNote | tools/data_enrichment_tool.py:42-47 | Unless the lead came back unchanged, a lead with name and address gets the search note. |
| DataEnrichment.CleanedKeepsPlainKey | tools/data_enrichment_tool.py:225-252 | A key the cleaner does not look at keeps its value. |
| DataEnrichment.FetchFailureAddsNoSiteKeys | tools/data_enrichment_tool.py:95-100 | When the fetch fails, only the search note can be new. |
| DataEnrichment.AsWrittenDiscardsEnrichment | tools/data_enrichment_tool.py:241 | As written, a website showing any phone makes the result equal to the lead. |
| DataEnrichment.IntendedDoesNotRaise | tools/data_enrichment_tool.py:225-252 | With the intended pattern, a well-typed lead merged with well-typed findings never raises. |
| DataEnrichment.IntendedIsCleanedMerge | tools/data_enrichment_tool.py:33-52 | With the intended pattern, the result is the cleaned merge, never the fallback. |
| DataEnrichment.IntendedKeepsSitePhones | tools/data_enrichment_tool.py:84-87 | With the intended pattern, every phone found on the site is in the result, each once. |
| DataEnrichment.CleanedMergeKeepsSitePhones | tools/data_enrichment_tool.py:236-244 | The site's phone list survives cleaning of the merge. |
| DataEnrichment.CleanedKeepsCleanPhones | tools/data_enrichment_tool.py:236-244 | A list of found phones comes out of cleaning unchanged. |
| DataEnrichment.SitePhonesAreClean | tools/data_enrichment_tool.py:168-184 | Listed site phones are clean strings of at least ten characters. |
| DataEnrichment.CleanListSurvives | tools/data_enrichment_tool.py:238-244 | A list of clean phones is its own cleaning. |
| DataEnrichment.IntendedFilesSiteDetails | tools/data_enrichment_tool.py:74-82 | With the intended pattern, the site's description replaces the lead's. Its links replace the lead's, each with a scheme. The e-mail comes from the site. |
| DataEnrichment.CleanedMergeFilesDetails | tools/data_enrichment_tool.py:246-250 | The description and the schemed links of the site survive cleaning. |
| DataEnrichment.CleanedSchemesLinks | tools/data_enrichment_tool.py:246-250 | Cleaning keeps the platforms and gives every link a scheme. |
| DataEnrichment.CleanedMergeFilesEmail | tools/data_enrichment_tool.py:70-71 | An e-mail kept after cleaning is one found on the site. |
| DataEnrichment.Run | tools/data_enrichment_tool.py:254-266 | Invalid JSON gives the error object. A dict is enriched. A list comes back unchanged. Any other value raises. |
| GoogleMapsSearch.FormatOpeningHours | tools/google_maps_tool.py:224-229 | "" for a falsy value or a dict without `weekday_text`. Otherwise the entries are joined by "; " and a non-string entry raises. |
| GoogleMapsSearch.OpeningHoursLines | tools/google_maps_tool.py:229 | Day lines without ';' can be split back out of the formatted hours. |
| GoogleMapsSearch.PhotoUrlReference | tools/google_maps_tool.py:236 | Every photo URL carries its reference, which reads back from it. |
| GoogleMapsSearch.PhotoUrlsOf | tools/google_maps_tool.py:233-238 | No more URLs than photos. |
| GoogleMapsSearch.PhotoUrls | tools/google_maps_tool.py:234 | At most three URLs. |
| GoogleMapsSearch.PhotoUrlsOfSucceeds | tools/google_maps_tool.py:234-237 | The photo loop succeeds iff every visited photo can be looked at. |
| GoogleMapsSearch.PhotoUrlsOfReferenced | tools/google_maps_tool.py:234-237 | Photos that all hold string references give one URL each, in order. |
| GoogleMapsSearch.PhotoUrlsOfSources | tools/google_maps_tool.py:234-237 | Every URL comes from a photo that has a reference. |
| GoogleMapsSearch.NearbyStubs | tools/google_maps_tool.py:68-83 | At most `max_results` stubs. An empty geocode raises. |
| GoogleMapsSearch.ApiRecord | tools/google_maps_tool.py:83-107 | A record has the twelve keys and the stub's place id, and is built from that place's details. |
| GoogleMapsSearch.DerivedFields | tools/google_maps_tool.py:99-106 | At most three photo URLs. |
| GoogleMapsSearch.DetailsBusiness | tools/google_maps_tool.py:94-107 | Exactly the twelve keys, with the given place id. |
| GoogleMapsSearch.DetailsRecord | tools/google_maps_tool.py:94-107 | Exactly the twelve keys, with the given place id. |
| GoogleMapsSearch.DetailsRecordCopies | tools/google_maps_tool.py:95-101 | Copied fields are as the API gave them, "" or 0 when missing. |
| GoogleMapsSearch.DerivedFieldsDefaults | tools/google_maps_tool.py:99-104 | Coordinates are 0 without geometry. Categories are "" without types, else the types joined by ", ". Hours are "" when missing. |
| GoogleMapsSearch.ApiRecords | tools/google_maps_tool.py:82-114 | One record per stub. |
| GoogleMapsSearch.ApiRecordsAligned | tools/google_maps_tool.py:83-109 | A list comes back iff every stub gives a record and the delay can be slept (or there are no stubs). Record i is then stub i's. |
| GoogleMapsSearch.ApiSearch | tools/google_maps_tool.py:64-114 | At most `max_results` records. |
| GoogleMapsSearch.ApiSearchOrder | tools/google_maps_tool.py:83-109 | Records follow the stubs in order, each keeping its stub's place id. |
| GoogleMapsSearch.ApiSearchAllOrNothing | tools/google_maps_tool.py:68-117 | An unknown location, any stub that raises, or a negative `SEARCH_DELAY` yields no records. |
| GoogleMapsSearch.ParseDecimalOfNat | tools/google_maps_tool.py:199 | `float(str(n)) == n` for a natural number. |
| GoogleMapsSearch.PaneRecord | tools/google_maps_tool.py:166-222 | A scraped record has the twelve keys. |
| GoogleMapsSearch.ScrapedBusiness | tools/google_maps_tool.py:169-216 | Exactly the twelve keys. |
| GoogleMapsSearch.ScrapedBusinessFields | tools/google_maps_tool.py:171-216 | The six page fields are as given. The other six are the fixed defaults. |
| GoogleMapsSearch.PaneRecordFields | tools/google_maps_tool.py:171-216 | No title gives no record. The rating is 0 when missing. A missing address or website is "". The defaults are fixed. |
| GoogleMapsSearch.ScrapeRecords | tools/google_maps_tool.py:140-153 | No more records than hits. |
| GoogleMapsSearch.ScrapeRecordsSources | tools/google_maps_tool.py:140-153 | A record is scraped iff some clicked hit's pane gives it. |
| GoogleMapsSearch.ScrapeOutcome | tools/google_maps_tool.py:120-164 | At most `max_results` records. Anything that raises gives a failure: the delay's sleep (caught by the method's own `except`) or `quit` in `finally`. Both end as `[]` in `search_businesses`. |
| GoogleMapsSearch.ScrapeNegativeDelay | tools/google_maps_tool.py:140-161 | A negative `SEARCH_DELAY` raises after the first hit whose click works, so scraping returns no records. When every click fails, the loop completes, also with no records. |
| GoogleMapsSearch.ScrapingQuitsDriver | tools/google_maps_tool.py:162-164 | After scraping, any driver held is closed. A session this run started is the one held. |
| GoogleMapsSearch.SearchCap | tools/google_maps_tool.py:83 | Neither path returns more than `max_results` records. |
| GoogleMapsSearch.SearchRecordsShape | tools/google_maps_tool.py:94-107 | Both paths build records with the same twelve keys. |
| GoogleMapsSearch.GoogleMapsSearchTool.constructor | tools/google_maps_tool.py:20-23 | A client exists iff the key is non-empty, the configured delay is kept, and no driver is held. |
| GoogleMapsSearch.GoogleMapsSearchTool.SearchBusinesses | tools/google_maps_tool.py:39-62 | The API path when a client exists, leaving the driver alone. Otherwise the scraping path, quitting the driver. A failure gives []. |
| GoogleMapsSearch.GoogleMapsSearchTool.SearchWithApi | tools/google_maps_tool.py:64-118 | The API search's records, or [] when it raises. |
| GoogleMapsSearch.GoogleMapsSearchTool.CollectRecords | tools/google_maps_tool.py:83-114 | The loop, with its sleep after each record, equals the Collected fold: the records of all stubs in order, or the first failure. |
| GoogleMapsSearch.GoogleMapsSearchTool.SetupDriver | tools/google_maps_tool.py:25-37 | The session is stored before the stealth script runs. The driver is ready iff both steps succeed. |
| GoogleMapsSearch.GoogleMapsSearchTool.SearchWithScraping | tools/google_maps_tool.py:120-164 | The scraping outcome, with the driver quit in `finally`. |
| GoogleMapsSearch.GoogleMapsSearchTool.ScrapeHits | tools/google_maps_tool.py:140-155 | The loop keeps exactly the records of the hits that give one, in order. The sleep follows only hits whose click worked, so it fails with the sleep error iff the delay is negative and some click works. |
| GoogleMapsSearch.GoogleMapsSearchTool.ExtractBusinessInfo | tools/google_maps_tool.py:166-222 | The field-by-field updates give exactly the pane's record, or None. |
| GoogleMapsSearch.GoogleMapsSearchTool.GetPhotoUrls | tools/google_maps_tool.py:231-238 | The URLs of the first three photos that have a reference. |
| GoogleMapsSearch.GoogleMapsSearchTool.LookAtPhotos | tools/google_maps_tool.py:233-238 | The loop appends one URL per referenced photo, in order, or raises as the first bad photo does. |

## Left out

- Network and browser I/O, the waiting `time.sleep` does, `print` logging and the HTTP session headers. The fetched page, the Places API answers and the browser's behaviour are inputs (`Fetch`/`Page`, `PlacesApi`, `MapsWeb`).
- HTML parsing is left out. BeautifulSoup's results (text, anchors, meta tags, blocks, paragraphs) are given as a `Page`.
- The e-mail `re.findall` over the page text is an input (`textEmails`); it is not recognised by the model.
- JSON text is left out. `json.loads`/`json.dumps` are modelled on the decoded value, and `indent`, `ensure_ascii` and dict key order are not modelled. The Maps tool's `_run` is only that `json.dumps` and is not modelled separately.
- Python set order, and therefore the order of the `emails_encontrados` and `telefones_adicionais` lists, is left open. The contracts hold for every order.
- Dict insertion order is not modelled (maps).
- `enrich_contact_info` aliases the lead's nested `redes_sociais` dict. The model does not capture the mutation the cleaner makes through that alias, which also changes the caller's lead.
- Regular expressions use ASCII digits and ASCII case folding. Unicode `\d` and full IGNORECASE folding are not modelled.
- Values.Display: a float, list or dict renders as "" rather than Python's `str` of it. It is used only where a photo reference, a name or an address is rendered.
- Values.JoinValue: joining a dict (its keys, in an open order) is modelled as a TypeError.
- GoogleMapsSearch.ParseDecimal: only plain decimals are read. Exponents, "inf", "nan" and surrounding whitespace are not accepted. Single underscores between digits are accepted, in both parts, as `float` accepts them. The value is the exact decimal, not the nearest binary double that `float` returns, so GoogleMapsSearch.RatingValue stores an exact rating.
- Text.ParseInt: only ASCII digits are read, so a value written in other Unicode decimal digits is refused where `int` accepts it. The limit of 4300 digits that Python 3.11 and later put on `int` of a string is not modelled. The whitespace stripped is exactly what `int` strips: ASCII `\t\n\v\f\r` and space, and the non-ASCII whitespace, but not U+001C..U+001F.
- GoogleMapsSearch.GoogleMapsSearchTool.constructor: the googlemaps client's own validation of the key is library code and is not modelled. A client exists iff the key is non-empty.
- GoogleMapsSearch.GoogleMapsSearchTool.SetupDriver: the Chrome options are not modelled. Only whether the launch and the stealth script succeed is.
- The radius and the keyword are passed to the nearby search unchanged. What the service does with them is not modelled.
- Failure messages are approximations of the Python exception texts.

## Findings

| source | as written | input that shows it | evidently intended | confidence | as-written member | corrected member |
|---|---|---|---|---|---|---|
| tools/data_enrichment_tool.py:241 | The class `[^\d+()-\s]` holds the range `)-\s`, which `re` refuses to compile ("bad character range"). So cleaning any non-empty phone list raises, and `enrich_contact_info` discards all enrichment and returns the lead unchanged. | A lead with a website whose page shows "(11) 99999-9999" | Keep digits, whitespace and `+ ( ) -`, and drop the rest. | not executed | DataEnrichment.AsWrittenDiscardsEnrichment | DataEnrichment.IntendedKeepsSitePhones |
