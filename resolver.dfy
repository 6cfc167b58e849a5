/** The resolve half of a search action (lib/actions/musicSearch.js and
    lib/actions/search.js): reading the account id and serial number off the
    player's account list, and turning a free-text term into the request the
    adapter's catalog answers, with the country looked up once and cached.

    Each action file keeps this state in module variables of its own; a
    `SearchState` object is one such set. Network replies (the account list,
    the country lookup) are inputs. */
module Resolver {
  import opened Wrappers
  import opened Text
  import opened Catalog
  import opened QueryParser

  /** What the search step asks next: the local library index, or a catalog
      URL for an authenticated request. */
  datatype SearchRequest = LibraryQuery(musicType: MusicType, term: string) | CatalogRequest(url: string)

  /** The replies a search waits for: the player's `/status/accounts`
      document, the `ipinfo.io` country, and the catalog's (or the library
      index's) answer to the search request. */
  datatype Replies<R> = Replies(
    accounts: Result<string, string>,
    country: Result<string, string>,
    search: Result<R, string>)

  /** The module variables `country`, `accountId`, `accountSN`, `searchType`
      of one action file; `countryLookups` counts the requests made to
      `ipinfo.io`. */
  class SearchState {
    var country: string
    var accountId: string
    var accountSN: string
    var searchType: int
    var countryLookups: nat

    constructor ()
      ensures country == "" && accountId == "" && accountSN == ""
      ensures searchType == 0 && countryLookups == 0
    {
      country, accountId, accountSN := "", "", "";
      searchType, countryLookups := 0, 0;
    }
  }

  /** The id and serial number read after the first occurrence of `marker`:
      the text from the next `<UN>` to the following `</UN>`, and from the
      next `SerialNum="` to the following `"`. None when `marker` does not
      occur. */
  function AccountFields(res: string, marker: string): Option<(string, string)> {
    var actLoc := IndexOf(res, marker, 0);
    if actLoc == -1 then None
    else
      var idLoc := IndexOf(res, "<UN>", actLoc) + 4;
      var snLoc := IndexOf(res, "SerialNum=\"", actLoc) + 11;
      Some((Substring(res, idLoc, IndexOf(res, "</UN>", idLoc)),
            Substring(res, snLoc, IndexOf(res, "\"", snLoc))))
  }

  /** The first occurrence at or after `from` is the one at `at`. */
  lemma FirstOccurrence(s: string, pat: string, from: nat, at: nat)
    requires from <= at && OccursAt(s, pat, at)
    requires forall k :: from <= k < at ==> !OccursAt(s, pat, k)
    ensures IndexOfFrom(s, pat, from) == at
  {
  }

  /** A closing `</UN>` is found right after an id that holds no '<'. */
  lemma CloseAfter(s: string, from: nat, body: string, close: string)
    requires from + |body| + |close| <= |s| && s[from..from + |body| + |close|] == body + close
    requires close != [] && close[0] !in body
    ensures IndexOfFrom(s, close, from) == from + |body|
  {
    assert s[from + |body|..from + |body| + |close|] == close;
    forall k | from <= k < from + |body|
      ensures !OccursAt(s, close, k)
    {
      assert s[k] == body[k - from];
    }
    FirstOccurrence(s, close, from, from + |body|);
  }

  /** The reading `AccountFields` does, stated on positions: the marker
      first occurs at `at`, the opening tag first occurs after it at `open`,
      and the field's text `body` is followed by `close`, whose first
      character `body` does not hold. The field read is then `body`. */
  lemma FieldAt(res: string, marker: string, at: nat, tag: string, open: nat, body: string, close: string)
    requires OccursAt(res, marker, at) && forall k :: 0 <= k < at ==> !OccursAt(res, marker, k)
    requires at <= open && OccursAt(res, tag, open)
    requires forall k :: at <= k < open ==> !OccursAt(res, tag, k)
    requires OccursAt(res, body + close, open + |tag|)
    requires close != [] && close[0] !in body
    ensures IndexOf(res, marker, 0) == at && IndexOf(res, tag, at) == open
    ensures Substring(res, open + |tag|, IndexOf(res, close, open + |tag|)) == body
  {
    var from := open + |tag|;
    FirstOccurrence(res, marker, 0, at);
    FirstOccurrence(res, tag, at, open);
    assert res[from..from + |body| + |close|] == body + close;
    CloseAfter(res, from, body, close);
    assert res[from..from + |body|] == (body + close)[..|body|] == body;
  }

  /** In an account list whose first occurrence of the service's marker is
      at `at`, and whose first `<UN>` after it is at `open`, the id read is
      the element's text, up to the closing `</UN>`. */
  lemma AccountIdRead(res: string, marker: string, at: nat, open: nat, id: string)
    requires OccursAt(res, marker, at) && forall k :: 0 <= k < at ==> !OccursAt(res, marker, k)
    requires at <= open && OccursAt(res, "<UN>", open)
    requires forall k :: at <= k < open ==> !OccursAt(res, "<UN>", k)
    requires OccursAt(res, id + "</UN>", open + 4) && '<' !in id
    ensures var f := AccountFields(res, marker); f.Some? && f.value.0 == id
  {
    FieldAt(res, marker, at, "<UN>", open, id, "</UN>");
  }

  /** Likewise the serial number is the quoted value of the first
      `SerialNum="` after the marker. */
  lemma AccountSerialRead(res: string, marker: string, at: nat, open: nat, sn: string)
    requires OccursAt(res, marker, at) && forall k :: 0 <= k < at ==> !OccursAt(res, marker, k)
    requires at <= open && OccursAt(res, "SerialNum=\"", open)
    requires forall k :: at <= k < open ==> !OccursAt(res, "SerialNum=\"", k)
    requires OccursAt(res, sn + "\"", open + 11) && '"' !in sn
    ensures var f := AccountFields(res, marker); f.Some? && f.value.1 == sn
  {
    FieldAt(res, marker, at, "SerialNum=\"", open, sn, "\"");
  }

  /** Without the marker nothing is read. */
  lemma AccountMissing(res: string, marker: string)
    requires forall k :: !OccursAt(res, marker, k)
    ensures AccountFields(res, marker) == None
  {
  }

  /** `getAccountId`. The id is cleared first; without the service's marker
      in the account list the serial number becomes `fallbackSN` when there
      is one (lib/actions/musicSearch.js) and is kept otherwise
      (lib/actions/search.js). */
  method GetAccountId(st: SearchState, service: Service, accounts: Result<string, string>,
                      marker: string, fallbackSN: Option<string>) returns (r: Result<(), string>)
    modifies st
    ensures st.country == old(st.country) && st.searchType == old(st.searchType)
    ensures st.countryLookups == old(st.countryLookups)
    ensures r.Err? <==> service != Library && accounts.Err?
    ensures r.Err? ==> r.error == accounts.error
    ensures service == Library || accounts.Err? ==> st.accountId == "" && st.accountSN == old(st.accountSN)
    ensures service != Library && accounts.Ok? ==>
      match AccountFields(accounts.value, marker)
      case Some(f) => st.accountId == f.0 && st.accountSN == f.1
      case None => st.accountId == "" && st.accountSN == fallbackSN.GetOr(old(st.accountSN))
  {
    st.accountId := "";
    if service == Library {
      return Ok(());
    }
    if accounts.Err? {
      return Err(accounts.error);
    }
    var res := accounts.value;
    var actLoc := IndexOf(res, marker, 0);
    if actLoc != -1 {
      var idLoc := IndexOf(res, "<UN>", actLoc) + 4;
      var snLoc := IndexOf(res, "SerialNum=\"", actLoc) + 11;
      st.accountId := Substring(res, idLoc, IndexOf(res, "</UN>", idLoc));
      st.accountSN := Substring(res, snLoc, IndexOf(res, "\"", snLoc));
    } else {
      if fallbackSN.Some? {
        st.accountSN := fallbackSN.value;
      }
    }
    r := Ok(());
  }

  /** The term handed to the catalog: with a ':' the tokenized fields go
      through the adapter's `term`; otherwise the decoded term itself for
      the library, and its percent-encoding for a streaming service. */
  function SearchTerm<R>(service: Service, t: MusicType, term: string, adapter: Adapter<R>): string {
    if Contains(term, ":") then
      var f := Parse(term);
      adapter.term(t, term, f.artist, f.album, f.track)
    else if service == Library then term
    else PercentEncode(term)
  }

  /** The term-building branch of `doSearch`, with the tokenizer loop. */
  method BuildTerm<R>(service: Service, t: MusicType, text: string, adapter: Adapter<R>) returns (newTerm: string)
    ensures newTerm == SearchTerm(service, t, text, adapter)
  {
    if Contains(text, ":") {
      var artist, album, track := Tokenize(text);
      newTerm := adapter.term(t, text, artist, album, track);
    } else {
      newTerm := if service == Library then text else PercentEncode(text);
    }
  }

  /** A plain term reaches a streaming catalog encoded so that decoding
      gives it back unchanged, and reaches the library as it is. */
  lemma PlainTermPreserved<R>(service: Service, t: MusicType, term: string, adapter: Adapter<R>)
    requires !Contains(term, ":")
    ensures service == Library ==> SearchTerm(service, t, term, adapter) == term
    ensures service != Library ==> PercentDecode(SearchTerm(service, t, term, adapter)) == Ok(term)
  {
    if service != Library {
      DecodeEncode(term);
    }
  }

  /** A catalog search must look the country up first exactly when the
      adapter wants a country and none is cached yet. */
  predicate NeedsCountry(suffix: string, cached: string) {
    suffix != "" && cached == ""
  }

  /** `doSearch`: decodes the term, builds the adapter's term and URL,
      and for a streaming service appends the country, looking it up only
      while none is cached. `searchType` is reassigned for song searches from
      two positions that are never set, so it stays 0. */
  method DoSearch<R>(st: SearchState, service: Service, t: MusicType, term: string,
                     adapter: Adapter<R>, countryReply: Result<string, string>)
    returns (r: Result<SearchRequest, string>)
    modifies st
    ensures st.accountId == old(st.accountId) && st.accountSN == old(st.accountSN)
    ensures PercentDecode(term).Err? ==> (r == Err(UriMalformed) && st.country == old(st.country)
      && st.countryLookups == old(st.countryLookups) && st.searchType == old(st.searchType))
    ensures PercentDecode(term).Ok? ==>
      var newTerm := SearchTerm(service, t, PercentDecode(term).value, adapter);
      var url := adapter.searchUrl(t) + newTerm;
      && st.searchType == (if t == Song then 0 else old(st.searchType))
      && (service == Library ==>
            r == Ok(LibraryQuery(t, newTerm))
            && st.country == old(st.country) && st.countryLookups == old(st.countryLookups))
      && (service != Library && NeedsCountry(adapter.countrySuffix, old(st.country)) ==>
            st.countryLookups == old(st.countryLookups) + 1
            && (countryReply.Err? ==> (r == Err(countryReply.error) && st.country == old(st.country)))
            && (countryReply.Ok? ==> (st.country == countryReply.value
                  && r == Ok(CatalogRequest(url + adapter.countrySuffix + countryReply.value)))))
      && (service != Library && !NeedsCountry(adapter.countrySuffix, old(st.country)) ==>
            st.country == old(st.country) && st.countryLookups == old(st.countryLookups)
            && r == Ok(CatalogRequest(url + (if adapter.countrySuffix != "" then adapter.countrySuffix + st.country else ""))))
  {
    var url := adapter.searchUrl(t);
    var decoded := PercentDecode(term);
    if decoded.Err? {
      return Err(decoded.error);
    }
    var newTerm := BuildTerm(service, t, decoded.value, adapter);
    if t == Song {
      // trackPos and artistPos are never assigned, so neither test holds.
      st.searchType := 0;
    }
    url := url + newTerm;
    assert url + "" == url;
    if service == Library {
      r := Ok(LibraryQuery(t, newTerm));
    } else if adapter.countrySuffix != "" && st.country == "" {
      st.countryLookups := st.countryLookups + 1;
      if countryReply.Err? {
        return Err(countryReply.error);
      }
      st.country := countryReply.value;
      url := url + adapter.countrySuffix + st.country;
      r := Ok(CatalogRequest(url));
    } else {
      if adapter.countrySuffix != "" {
        url := url + (adapter.countrySuffix + st.country);
      }
      r := Ok(CatalogRequest(url));
    }
  }

  // ---------------------------------------------------------------------
  // What resolving does, as a whole
  // ---------------------------------------------------------------------

  /** Why `getAccountId` followed by `doSearch` rejects, if it does: the
      account list of a streaming service could not be fetched, the term is
      not valid percent-encoding, or the country lookup a streaming search
      needs failed. */
  function ResolveFailure<R>(s: Service, term: string, adapter: Adapter<R>, accounts: Result<string, string>,
                             country: Result<string, string>, cachedCountry: string): Option<string>
  {
    if s != Library && accounts.Err? then Some(accounts.error)
    else if PercentDecode(term).Err? then Some(UriMalformed)
    else if s != Library && NeedsCountry(adapter.countrySuffix, cachedCountry) && country.Err? then Some(country.error)
    else None
  }

  /** The account id and serial number `getAccountId` leaves behind. */
  function AccountAfter(s: Service, accounts: Result<string, string>, marker: string,
                        fallbackSN: Option<string>, oldSN: string): (string, string)
  {
    if s == Library || accounts.Err? then ("", oldSN)
    else match AccountFields(accounts.value, marker)
      case Some(f) => f
      case None => ("", fallbackSN.GetOr(oldSN))
  }

  /** The country cached after a search that resolved: the looked-up one
      when the search needed it, the cached one otherwise. */
  function CountryAfter(s: Service, suffix: string, cached: string, country: Result<string, string>): string {
    if s != Library && NeedsCountry(suffix, cached) && country.Ok? then country.value else cached
  }

  /** Resolving, as `musicSearch` and `search` run it: the account step and
      then the search step, stopping at the first rejection. */
  method Resolve<R>(st: SearchState, s: Service, t: MusicType, term: string, adapter: Adapter<R>,
                    accounts: Result<string, string>, marker: string, fallbackSN: Option<string>,
                    country: Result<string, string>)
    returns (r: Result<SearchRequest, string>)
    modifies st
    ensures var failed := ResolveFailure(s, term, adapter, accounts, country, old(st.country));
      && (failed.Some? <==> r.Err?)
      && (failed.Some? ==> r.error == failed.value)
      && (failed.None? ==>
            (st.accountId, st.accountSN) == AccountAfter(s, accounts, marker, fallbackSN, old(st.accountSN))
            && st.country == CountryAfter(s, adapter.countrySuffix, old(st.country), country)
            && st.searchType == (if t == Song then 0 else old(st.searchType)))
  {
    var account := GetAccountId(st, s, accounts, marker, fallbackSN);
    if account.Err? {
      return Err(account.error);
    }
    r := DoSearch(st, s, t, term, adapter, country);
  }
}
