/**
 * The Airbnb connection controller: the iCalendar URL check (an http or
 * https URL whose path ends in ".ics", optionally followed by a query) and
 * the connect request it guards, which tests the URL and runs a first
 * synchronisation.
 */
module AirbnbConnection {
  import opened Wrappers
  import opened Text
  import opened Channels
  import Hostel
  import AirbnbICal

  const HttpScheme: string := "http://"
  const HttpsScheme: string := "https://"
  const IcsSuffix: string := ".ics"
  const IcsQuery: string := ".ics?"
  const InvalidUrl: string := "URL iCal inválida"
  const Unreachable: string := "Não foi possível acessar o calendário iCal"
  /** The body of a connect that failed unexpectedly (the exception's own message is not modelled). */
  const ConnectFailed: string := "Erro na conexão: "

  // ------------------------------------------------------------ URL check

  /** A line terminator of Java's regular expressions: the characters `.` does not match. */
  predicate IsLineTerminator(c: char)
  {
    c == '\n' || c == '\r' || c == '\U{0085}' || c == '\U{2028}' || c == '\U{2029}'
  }

  predicate NoLineTerminator(s: string)
  {
    forall i :: 0 <= i < |s| ==> !IsLineTerminator(s[i])
  }

  /** No URL starts with both schemes: they differ at their fifth character. */
  lemma SchemesExclusive(url: string)
    ensures !(StartsWith(url, HttpScheme) && StartsWith(url, HttpsScheme))
  {
    if StartsWith(url, HttpScheme) {
      assert url[4] == url[..|HttpScheme|][4] == HttpScheme[4];
    }
    if StartsWith(url, HttpsScheme) {
      assert url[4] == url[..|HttpsScheme|][4] == HttpsScheme[4];
    }
  }

  /** The length of the URL's scheme, "http://" or "https://", when it starts with one. */
  function SchemeLength(url: string): (n: Option<nat>)
    ensures n.Some? ==> n.value <= |url|
    ensures n == Some(|HttpScheme|) <==> StartsWith(url, HttpScheme)
    ensures n == Some(|HttpsScheme|) <==> StartsWith(url, HttpsScheme)
    ensures n.None? <==> !StartsWith(url, HttpScheme) && !StartsWith(url, HttpsScheme)
  {
    SchemesExclusive(url);
    if StartsWith(url, HttpScheme) then Some(|HttpScheme|)
    else if StartsWith(url, HttpsScheme) then Some(|HttpsScheme|)
    else None
  }

  /**
   * The whole URL matches the pattern ^https?://.+\.ics(\?.*)?$: after the scheme, a text
   * free of line terminators that is at least one character followed by
   * ".ics", or at least one character followed by ".ics?" and anything.
   */
  predicate MatchesICalPattern(url: string)
  {
    var n := SchemeLength(url);
    n.Some? &&
    var rest := url[n.value..];
    NoLineTerminator(rest)
    && ((|rest| > |IcsSuffix| && EndsWith(rest, IcsSuffix)) || (rest != [] && Contains(rest[1..], IcsQuery)))
  }

  /** isValidICalUrl: a non-blank URL matching the pattern. */
  function IsValidICalUrl(url: Option<string>): (r: bool)
    ensures url.None? ==> !r
    ensures url.Some? && IsBlank(url.value) ==> !r
    ensures r ==> StartsWith(url.value, HttpScheme) || StartsWith(url.value, HttpsScheme)
  {
    url.Some? && !IsBlank(url.value) && MatchesICalPattern(url.value)
  }

  /**
   * The URLs the pattern describes: a scheme, a non-empty middle, ".ics",
   * then nothing or a query starting with "?", no line terminator after
   * the scheme.
   */
  predicate ICalShape(url: string, scheme: string, middle: string, query: string)
  {
    (scheme == HttpScheme || scheme == HttpsScheme) && middle != [] && (query == [] || query[0] == '?')
    && NoLineTerminator(middle + IcsSuffix + query) && url == scheme + middle + IcsSuffix + query
  }

  /** A text longer than a suffix it ends with is a non-empty middle followed by the suffix. */
  lemma SplitAtSuffix(rest: string, suffix: string)
    requires |rest| > |suffix| && EndsWith(rest, suffix)
    ensures rest[..|rest| - |suffix|] != [] && rest == rest[..|rest| - |suffix|] + suffix + []
  {
  }

  /** A text holding `suffix` and "?" after its first character is a non-empty middle, the suffix, and a query. */
  lemma SplitAtQuery(rest: string, suffix: string, j: nat)
    requires rest != [] && OccursAt(rest[1..], suffix + ['?'], j)
    ensures var i := j + 1;
      i + |suffix| < |rest| && rest[..i] != [] && rest[i + |suffix|] == '?'
      && rest == rest[..i] + suffix + rest[i + |suffix|..]
  {
    var i := j + 1;
    var occurrence := rest[1..][j..j + |suffix| + 1];
    assert occurrence == suffix + ['?'];
    assert forall k :: 0 <= k < |suffix| ==> rest[i..i + |suffix|][k] == occurrence[k] == suffix[k];
    assert rest[i..i + |suffix|] == suffix;
    assert rest[i + |suffix|] == (suffix + ['?'])[|suffix|];
    assert rest == rest[..i] + rest[i..i + |suffix|] + rest[i + |suffix|..];
  }

  /** A non-empty middle, a suffix and a query starting with "?" hold the suffix and "?" after the first character. */
  lemma JoinAtQuery(middle: string, suffix: string, query: string)
    requires middle != [] && query != [] && query[0] == '?'
    ensures Contains((middle + suffix + query)[1..], suffix + ['?'])
  {
    var rest := middle + suffix + query;
    assert rest[1..][|middle| - 1..|middle| + |suffix|] == suffix + ['?'];
    assert OccursAt(rest[1..], suffix + ['?'], |middle| - 1);
  }

  /** A URL made of a scheme and a rest: the scheme is recognised and the rest follows it. */
  lemma SchemeOf(url: string, scheme: string, rest: string)
    requires (scheme == HttpScheme || scheme == HttpsScheme) && url == scheme + rest
    ensures SchemeLength(url) == Some(|scheme|) && url[|scheme|..] == rest
  {
    assert url[..|scheme|] == scheme;
  }

  /** A URL put together from a scheme, a rest free of line terminators, and the rest's three parts has the shape. */
  lemma ShapeOfParts(url: string, scheme: string, rest: string, middle: string, query: string)
    requires (scheme == HttpScheme || scheme == HttpsScheme) && url == scheme + rest && NoLineTerminator(rest)
    requires middle != [] && (query == [] || query[0] == '?') && rest == middle + IcsSuffix + query
    ensures ICalShape(url, scheme, middle, query)
  {
  }

  /** Every valid URL has the shape. */
  lemma ValidUrlHasShape(url: string)
    requires IsValidICalUrl(Some(url))
    ensures exists scheme, middle, query :: ICalShape(url, scheme, middle, query)
  {
    PatternHasShape(url);
  }

  /** Every URL matching the pattern has the shape. */
  lemma PatternHasShape(url: string)
    requires MatchesICalPattern(url)
    ensures exists scheme, middle, query :: ICalShape(url, scheme, middle, query)
  {
    var n := SchemeLength(url).value;
    var scheme, rest := url[..n], url[n..];
    assert url == scheme + rest;
    assert scheme == HttpScheme || scheme == HttpsScheme;
    if |rest| > |IcsSuffix| && EndsWith(rest, IcsSuffix) {
      PlainShape(url, scheme, rest);
    } else {
      QueryShape(url, scheme, rest);
    }
  }

  /** A URL whose rest ends in ".ics" has the shape, with no query. */
  lemma PlainShape(url: string, scheme: string, rest: string)
    requires (scheme == HttpScheme || scheme == HttpsScheme) && url == scheme + rest && NoLineTerminator(rest)
    requires |rest| > |IcsSuffix| && EndsWith(rest, IcsSuffix)
    ensures exists middle, query :: ICalShape(url, scheme, middle, query)
  {
    SplitAtSuffix(rest, IcsSuffix);
    ShapeOfParts(url, scheme, rest, rest[..|rest| - |IcsSuffix|], []);
  }

  /** A URL whose rest holds ".ics?" after its first character has the shape, with a query. */
  lemma QueryShape(url: string, scheme: string, rest: string)
    requires (scheme == HttpScheme || scheme == HttpsScheme) && url == scheme + rest && NoLineTerminator(rest)
    requires rest != [] && Contains(rest[1..], IcsQuery)
    ensures exists middle, query :: ICalShape(url, scheme, middle, query)
  {
    assert IcsQuery == IcsSuffix + ['?'];
    var j := IndexOf(rest[1..], IcsQuery).value;
    SplitAtQuery(rest, IcsSuffix, j);
    var i := j + 1;
    ShapeOfParts(url, scheme, rest, rest[..i], rest[i + |IcsSuffix|..]);
  }

  /** Every URL of the shape is valid. */
  lemma ShapeIsValid(url: string, scheme: string, middle: string, query: string)
    requires ICalShape(url, scheme, middle, query)
    ensures IsValidICalUrl(Some(url))
  {
    var rest := middle + IcsSuffix + query;
    assert url == scheme + rest;
    SchemeOf(url, scheme, rest);
    if query != [] {
      assert IcsQuery == IcsSuffix + ['?'];
      JoinAtQuery(middle, IcsSuffix, query);
    }
    assert url[0] == scheme[0] == 'h';
    NotBlank(url, 0);
  }

  // ------------------------------------------------------------ connect

  /** The request body of a connect; `None` stands for a field left null. */
  datatype ConnectionRequest = ConnectionRequest(icalUrl: Option<string>, propertyId: Option<string>)

  /** The answer of a connect: an error text, or the connected property. */
  datatype ConnectResponse = ConnectError(error: string) | Connected(propertyId: Option<string>)

  /**
   * connectAirbnb: the URL check (400), the test request to the URL
   * (`reachable`, its outcome: 400 when it fails), then a first
   * synchronisation of the property from the URL's feed (`fetched`, the
   * content a fetch of the URL gives) whose failure is a 500.
   */
  method ConnectAirbnb(store: ChannelStore, db: Hostel.Database, req: ConnectionRequest, reachable: bool,
                       fetched: Option<string>, now: nat, emailClock: nat -> string, rgClock: nat -> string)
    returns (status: int, response: ConnectResponse)
    requires db.NoDoubleBooking()
    modifies store`airbnbSyncs, store`airbnbReservations, store`nextId
    modifies db`guests, db`reserves, db`roomOccupations, db`bedOccupations, db`nextId
    ensures db.NoDoubleBooking()
    ensures !IsValidICalUrl(req.icalUrl) ==> status == 400 && response == ConnectError(InvalidUrl)
    ensures IsValidICalUrl(req.icalUrl) && !reachable ==> status == 400 && response == ConnectError(Unreachable)
    ensures IsValidICalUrl(req.icalUrl) && reachable ==>
      var cfg := AirbnbSyncByPropertyId(old(store.airbnbSyncs), req.propertyId);
      var out := AirbnbICal.SyncImport(old(store.airbnbSyncs), req.propertyId, fetched, now,
                                       AirbnbICal.ImportState(old(store.airbnbReservations), old(store.nextId),
                                                              old(db.BookingState()), false),
                                       db.rooms, db.beds, emailClock, rgClock);
      (status == 200 <==> out.Ok?)
      && (status == 200 ==> response == Connected(req.propertyId)
                            && store.airbnbSyncs == old(store.airbnbSyncs)[cfg.value.value :=
                                 old(store.airbnbSyncs)[cfg.value.value].(lastSync := Some(now))]
                            && store.airbnbReservations == out.value.rows && store.nextId == out.value.nextId
                            && db.BookingState() == out.value.tables)
      && (status != 200 ==> status == 500 && response == ConnectError(ConnectFailed))
    ensures status != 200 ==>
      store.airbnbSyncs == old(store.airbnbSyncs) && store.airbnbReservations == old(store.airbnbReservations)
      && store.nextId == old(store.nextId) && db.guests == old(db.guests) && db.reserves == old(db.reserves)
      && db.roomOccupations == old(db.roomOccupations) && db.bedOccupations == old(db.bedOccupations)
      && db.nextId == old(db.nextId)
  {
    if !IsValidICalUrl(req.icalUrl) {
      return 400, ConnectError(InvalidUrl);
    }
    if !reachable {
      return 400, ConnectError(Unreachable);
    }
    var synced := AirbnbICal.SyncAirbnbReservations(store, db, req.propertyId, fetched, now, emailClock, rgClock);
    if synced.Err? {
      return 500, ConnectError(ConnectFailed);
    }
    status, response := 200, Connected(req.propertyId);
  }
}
