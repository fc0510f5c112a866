/** The decision rules of the business-setup page: the validation rules for
    phone and state, the request payload, the classification of submit and
    lookup failures, the pincode rules (minimum length, formatting, the UAE
    table), the case-insensitive name matcher, and the country chosen from
    the visitor's geolocation. The static `countries` and `countryStates`
    tables are parameters. */
module BusinessRules {
  import opened JsRuntime
  import opened JsStrings

  // ---------------------------------------------------------------- tables

  /** An entry of the `countries` list. */
  datatype Country = Country(name: string, code: string)

  /** An entry of the `countryStates` object, with its key. The object is a
      sequence because `Object.keys` order decides which key a search finds. */
  datatype StatesEntry = StatesEntry(key: string, hasStates: bool, states: seq<string>)

  /** `countryStates[name]`: the entry with that key, if any. */
  function LookupStates(table: seq<StatesEntry>, name: string): (r: Option<StatesEntry>)
    ensures r.Some? ==> r.value in table && r.value.key == name
    ensures r.None? <==> forall i :: 0 <= i < |table| ==> table[i].key != name
  {
    if table == [] then None
    else if table[0].key == name then Some(table[0])
    else LookupStates(table[1..], name)
  }

  /** `Object.keys(countryStates)`. */
  function Keys(table: seq<StatesEntry>): (r: seq<string>)
    ensures |r| == |table|
    ensures forall i :: 0 <= i < |table| ==> r[i] == table[i].key
  {
    if table == [] then [] else [table[0].key] + Keys(table[1..])
  }

  /** `country && countryStates[country] && countryStates[country].hasStates`. */
  predicate CountryHasStates(table: seq<StatesEntry>, country: string): (r: bool)
    ensures r ==> country != "" && country in Keys(table)
    ensures r ==> exists i :: 0 <= i < |table| && table[i].key == country && table[i].hasStates
    ensures (country != "" && country in Keys(table)
             && forall i :: 0 <= i < |table| && table[i].key == country ==> table[i].hasStates) ==> r
  {
    country != "" && LookupStates(table, country).Some? && LookupStates(table, country).value.hasStates
  }

  /** `countries.find(c => c.code === code)`. */
  function FindCountryByCode(countries: seq<Country>, code: string): (r: Option<Country>)
    ensures r.Some? ==> r.value in countries && r.value.code == code
    ensures r.None? <==> forall i :: 0 <= i < |countries| ==> countries[i].code != code
    ensures r.Some? ==> exists k :: 0 <= k < |countries| && countries[k] == r.value
                                    && forall j :: 0 <= j < k ==> countries[j].code != code
  {
    if countries == [] then None
    else if countries[0].code == code then Some(countries[0])
    else
      var rest := FindCountryByCode(countries[1..], code);
      assert rest.Some? ==> exists k :: 0 < k < |countries| && countries[k] == rest.value
                                       && forall j :: 0 <= j < k ==> countries[j].code != code by {
        if rest.Some? {
          var k :| 0 <= k < |countries[1..]| && countries[1..][k] == rest.value
                   && forall j :: 0 <= j < k ==> countries[1..][j].code != code;
          assert countries[k + 1] == rest.value;
          assert forall j :: 1 <= j < k + 1 ==> countries[j] == countries[1..][j - 1];
        }
      }
      rest
  }

  /** `countries.find(c => c.name === name)`. */
  function FindCountryByName(countries: seq<Country>, name: string): (r: Option<Country>)
    ensures r.Some? ==> r.value in countries && r.value.name == name
    ensures r.None? <==> forall i :: 0 <= i < |countries| ==> countries[i].name != name
    ensures r.Some? ==> exists k :: 0 <= k < |countries| && countries[k] == r.value
                                    && forall j :: 0 <= j < k ==> countries[j].name != name
  {
    if countries == [] then None
    else if countries[0].name == name then Some(countries[0])
    else
      var rest := FindCountryByName(countries[1..], name);
      assert rest.Some? ==> exists k :: 0 < k < |countries| && countries[k] == rest.value
                                       && forall j :: 0 <= j < k ==> countries[j].name != name by {
        if rest.Some? {
          var k :| 0 <= k < |countries[1..]| && countries[1..][k] == rest.value
                   && forall j :: 0 <= j < k ==> countries[1..][j].name != name;
          assert countries[k + 1] == rest.value;
          assert forall j :: 1 <= j < k + 1 ==> countries[j] == countries[1..][j - 1];
        }
      }
      rest
  }

  /** `countries.map(c => c.name)`. */
  function CountryNames(countries: seq<Country>): (r: seq<string>)
    ensures |r| == |countries|
    ensures forall i :: 0 <= i < |countries| ==> r[i] == countries[i].name
  {
    if countries == [] then [] else [countries[0].name] + CountryNames(countries[1..])
  }

  // ---------------------------------------------------------------- validation

  predicate IsDigit(c: char) {
    '0' <= c <= '9'
  }

  function AllDigits(s: string): (r: bool)
    ensures r <==> forall i :: 0 <= i < |s| ==> IsDigit(s[i])
  {
    if s == [] then true else IsDigit(s[0]) && AllDigits(s[1..])
  }

  /** The phone rule: required and matching `/^[0-9]{10}$/`. */
  function IsValidPhone(phone: string): (r: bool)
    ensures r <==> |phone| == 10 && forall i :: 0 <= i < |phone| ==> '0' <= phone[i] <= '9'
  {
    |phone| == 10 && AllDigits(phone)
  }

  /** The state rule: a non-empty state is required exactly for a country
      whose `countryStates` entry has states; otherwise anything goes. */
  predicate IsValidState(table: seq<StatesEntry>, country: string, state: string): (r: bool)
    ensures state != "" ==> r
    ensures !r ==> state == "" && CountryHasStates(table, country)
    ensures country !in Keys(table) ==> r
  {
    CountryHasStates(table, country) ==> state != ""
  }

  // ---------------------------------------------------------------- payload

  /** The form's values (`initialValues` gives the fields). */
  datatype FormValues = FormValues(
    businessName: string, website: string, gstin: string, pan: string,
    primaryEmail: string, phone: string, addressLine: string, city: string,
    state: string, pincode: string, country: string)

  const InitialValues := FormValues("", "", "", "", "", "", "", "", "", "", "India")

  datatype OfficeAddress = OfficeAddress(
    email: string, phone: string, addressLine: string, city: string,
    state: Option<string>, pincode: string, country: string)

  /** The body of the business-creation request. */
  datatype BusinessPayload = BusinessPayload(
    businessId: string, businessName: string, gstin: string, pan: string,
    email: string, phone: string, officeAddress: OfficeAddress)

  /** The payload `onSubmit` builds from the form values. */
  function BuildPayload(values: FormValues, table: seq<StatesEntry>): (p: BusinessPayload)
    ensures p.businessId == ""
    ensures p.businessName == values.businessName && p.gstin == values.gstin && p.pan == values.pan
    ensures p.email == values.primaryEmail && p.officeAddress.email == values.primaryEmail
    ensures p.phone == values.phone && p.officeAddress.phone == values.phone
    ensures p.officeAddress.addressLine == values.addressLine && p.officeAddress.city == values.city
    ensures p.officeAddress.pincode == values.pincode && p.officeAddress.country == values.country
    ensures p.officeAddress.state.Some? <==> CountryHasStates(table, values.country)
    ensures p.officeAddress.state.Some? ==> p.officeAddress.state.value == values.state
  {
    var address := OfficeAddress(values.primaryEmail, values.phone, values.addressLine, values.city,
                                 if CountryHasStates(table, values.country) then Some(values.state) else None,
                                 values.pincode, values.country);
    BusinessPayload("", values.businessName, values.gstin, values.pan, values.primaryEmail, values.phone, address)
  }

  /** A payload built from values that pass the state rule carries a
      non-empty state whenever it carries one at all. */
  lemma PayloadStateFollowsValidation(values: FormValues, table: seq<StatesEntry>)
    requires IsValidState(table, values.country, values.state)
    ensures BuildPayload(values, table).officeAddress.state.Some? ==> BuildPayload(values, table).officeAddress.state.value != ""
  {
  }

  // ---------------------------------------------------------------- submit outcome

  const NoBusinessIdMessage := "No business ID returned from API"
  const ServerErrorFallback := "Error from server"
  const NoResponseMessage := "No response from server. Please check your connection."
  const CreateBusinessFallback := "Error creating business"
  const SubmitSuccessMessage := "Business setup successful! Redirecting to dashboard..."
  const DashboardRoute := "/dashboard"

  /** The message `onSubmit` shows for a failure: the server's message (or a
      generic one) when the server answered, the connection message when
      nothing came back, the error's own message (or a generic one) otherwise. */
  function SubmitErrorMessage(e: JsError): (m: string)
    ensures m != ""
    ensures e.response.Some? && Truthy(e.response.value.dataMessage) ==> m == e.response.value.dataMessage.value
    ensures e.response.Some? && !Truthy(e.response.value.dataMessage) ==> m == ServerErrorFallback
    ensures e.response.None? && e.requestSent ==> m == NoResponseMessage
    ensures e.response.None? && !e.requestSent ==> m == (if e.message != "" then e.message else CreateBusinessFallback)
  {
    if e.response.Some? then OrElse(e.response.value.dataMessage, ServerErrorFallback)
    else if e.requestSent then NoResponseMessage
    else if e.message != "" then e.message
    else CreateBusinessFallback
  }

  /** A response without a business id surfaces as exactly that message. */
  lemma MissingBusinessIdMessage()
    ensures SubmitErrorMessage(ThrownError(NoBusinessIdMessage)) == NoBusinessIdMessage
  {
  }

  // ---------------------------------------------------------------- pincode rules

  /** The minimum pincode length for the current country code:
      `ca` 6, `au` 4, and 5 for `us`, `gb`, `ae` and every other code. */
  function MinPincodeLength(countryCode: string): (n: nat)
    ensures countryCode == "ca" ==> n == 6
    ensures countryCode == "au" ==> n == 4
    ensures countryCode != "ca" && countryCode != "au" ==> n == 5
  {
    if countryCode == "us" then 5
    else if countryCode == "ca" then 6
    else if countryCode == "gb" then 5
    else if countryCode == "au" then 4
    else if countryCode == "ae" then 5
    else 5
  }

  /** A lookup goes ahead for a non-empty pincode of at least the minimum length. */
  predicate PassesLengthGate(pincode: string, countryCode: string): (r: bool)
    ensures |pincode| < 4 ==> !r
    ensures |pincode| >= 6 ==> r
    ensures countryCode == "ca" ==> (r <==> |pincode| >= 6)
    ensures countryCode == "au" ==> (r <==> |pincode| >= 4)
    ensures countryCode != "ca" && countryCode != "au" ==> (r <==> |pincode| >= 5)
  {
    pincode != "" && |pincode| >= MinPincodeLength(countryCode)
  }

  /** `countryCode || 'ae'`. */
  function ApiCountryCode(countryCode: string): (r: string)
    ensures r != ""
    ensures countryCode != "" ==> r == countryCode
    ensures countryCode == "" ==> r == "ae"
  {
    if countryCode != "" then countryCode else "ae"
  }

  /** Canadian, British and Emirati codes are looked up without whitespace. */
  predicate StripsWhitespace(apiCode: string) {
    apiCode == "ca" || apiCode == "gb" || apiCode == "ae"
  }

  /** The pincode as sent to the lookup service. */
  function FormatPincode(apiCode: string, pincode: string): (r: string)
    ensures StripsWhitespace(apiCode) ==> (forall i :: 0 <= i < |r| ==> !IsWhitespace(r[i])) && r == StripWhitespace(pincode)
    ensures !StripsWhitespace(apiCode) ==> r == pincode
    ensures |r| <= |pincode|
  {
    if StripsWhitespace(apiCode) then StripWhitespace(pincode) else pincode
  }

  /** The hard-coded table of UAE postcodes and their cities. */
  function UaePostcodeCity(code: string): (r: Option<string>)
    ensures r.Some? ==> |code| == 5 && r.value != ""
    ensures r.Some? ==> forall i :: 0 <= i < |code| ==> IsDigit(code[i])
  {
    if code == "00000" then Some("Abu Dhabi")
    else if code == "11111" then Some("Dubai")
    else if code == "22222" then Some("Sharjah")
    else if code == "33333" then Some("Ajman")
    else if code == "44444" then Some("Umm Al Quwain")
    else if code == "55555" then Some("Ras Al Khaimah")
    else if code == "66666" then Some("Fujairah")
    else None
  }

  /** Five copies of one digit from 0 to 6. */
  predicate RepeatedDigitCode(code: string) {
    |code| == 5 && '0' <= code[0] <= '6' && forall i :: 0 <= i < 5 ==> code[i] == code[0]
  }

  /** The UAE table holds exactly the seven codes made of one digit 0-6 repeated five times. */
  lemma UaeTableIsRepeatedDigits(code: string)
    ensures UaePostcodeCity(code).Some? <==> RepeatedDigitCode(code)
  {
    if RepeatedDigitCode(code) {
      var d := code[0];
      assert code == [d, d, d, d, d];
      if d == '0' { assert code == "00000"; }
      else if d == '1' { assert code == "11111"; }
      else if d == '2' { assert code == "22222"; }
      else if d == '3' { assert code == "33333"; }
      else if d == '4' { assert code == "44444"; }
      else if d == '5' { assert code == "55555"; }
      else { assert code == "66666"; }
    }
  }

  /** A table code has no whitespace in it. */
  lemma TableCodeHasNoWhitespace(code: string)
    requires UaePostcodeCity(code).Some?
    ensures StripWhitespace(code) == code
  {
    UaeTableIsRepeatedDigits(code);
    assert forall i :: 0 <= i < |code| ==> IsDigit(code[i]);
  }

  /** Whitespace never blocks a table hit: spacing out a table code still
      finds the same city, since the lookup strips it first. */
  lemma UaeTableIgnoresSpacing(a: string, b: string)
    requires UaePostcodeCity(a + b).Some?
    ensures UaePostcodeCity(FormatPincode("ae", a + " " + b)) == UaePostcodeCity(a + b)
  {
    StripSpaceBetween(a, b);
    TableCodeHasNoWhitespace(a + b);
    assert FormatPincode("ae", a + " " + b) == StripWhitespace(a + " " + b);
  }

  /** Stripping removes a space between two parts. */
  lemma StripSpaceBetween(a: string, b: string)
    ensures StripWhitespace(a + " " + b) == StripWhitespace(a + b)
  {
    StripWhitespaceAppend(a + " ", b);
    StripWhitespaceAppend(a, " ");
    assert StripWhitespace(" ") == "";
    StripWhitespaceAppend(a, b);
  }

  // ---------------------------------------------------------------- name matcher

  /** The case-insensitive match of the lookup: equal, or either name
      contains the other, after lower-casing both. */
  predicate NameMatches(candidate: string, query: string): (r: bool)
    ensures ToLower(candidate) == ToLower(query) ==> r
    ensures query == "" || candidate == "" ==> r
  {
    var c := ToLower(candidate);
    var q := ToLower(query);
    c == q || Includes(c, q) || Includes(q, c)
  }

  /** The index of the first candidate that matches `query`, if any. */
  function FindMatchIndex(candidates: seq<string>, query: string): (r: Option<nat>)
    ensures r.Some? ==> r.value < |candidates| && NameMatches(candidates[r.value], query)
    ensures r.Some? ==> forall j :: 0 <= j < r.value ==> !NameMatches(candidates[j], query)
    ensures r.None? <==> forall j :: 0 <= j < |candidates| ==> !NameMatches(candidates[j], query)
  {
    if candidates == [] then None
    else if NameMatches(candidates[0], query) then Some(0)
    else match FindMatchIndex(candidates[1..], query)
      case None => None
      case Some(k) => Some(k + 1)
  }

  /** `candidates.find(c => NameMatches(c, query))`: the first candidate that matches. */
  function FindMatch(candidates: seq<string>, query: string): (r: Option<string>)
    ensures r.Some? ==> r.value in candidates && NameMatches(r.value, query)
    ensures r.None? <==> forall j :: 0 <= j < |candidates| ==> !NameMatches(candidates[j], query)
    ensures r.Some? ==> exists k :: 0 <= k < |candidates| && candidates[k] == r.value
                                    && forall j :: 0 <= j < k ==> !NameMatches(candidates[j], query)
  {
    match FindMatchIndex(candidates, query)
    case None => None
    case Some(k) => assert candidates[k] == candidates[k]; Some(candidates[k])
  }

  /** The matcher does not care which side is the query. */
  lemma NameMatchesSymmetric(a: string, b: string)
    ensures NameMatches(a, b) <==> NameMatches(b, a)
  {
  }

  /** Names equal up to ASCII case always match, and a name matches any
      query contained in it (so the empty query matches everything). */
  lemma NameMatchesCases(candidate: string, query: string, prefix: string, suffix: string)
    ensures ToLower(candidate) == ToLower(query) ==> NameMatches(candidate, query)
    ensures NameMatches(prefix + query + suffix, query)
  {
    var q := ToLower(query);
    var whole := prefix + query + suffix;
    var lw := ToLower(whole);
    assert lw[|prefix|..|prefix| + |query|] == q;
    assert OccursAt(q, lw, |prefix|);
    IncludesIffOccurs(lw, q);
  }

  /** Lower-casing either name first changes nothing. */
  lemma NameMatchesIgnoresCase(candidate: string, query: string)
    ensures NameMatches(ToLower(candidate), query) <==> NameMatches(candidate, query)
    ensures NameMatches(candidate, ToLower(query)) <==> NameMatches(candidate, query)
  {
    ToLowerIdempotent(candidate);
    ToLowerIdempotent(query);
  }

  /** A match needs the lower-cased names to be equal, or one to occur in
      the other; together with `NameMatchesCases` both directions. */
  lemma NameMatchesIff(candidate: string, query: string)
    ensures NameMatches(candidate, query) <==>
      (var c := ToLower(candidate); var q := ToLower(query); c == q || OccursIn(q, c) || OccursIn(c, q))
  {
    IncludesIffOccurs(ToLower(candidate), ToLower(query));
    IncludesIffOccurs(ToLower(query), ToLower(candidate));
  }

  /** Names of the same length match exactly when they are equal up to case. */
  lemma NameMatchesSameLength(candidate: string, query: string)
    requires |candidate| == |query|
    ensures NameMatches(candidate, query) <==> ToLower(candidate) == ToLower(query)
  {
    NameMatchesIff(candidate, query);
    var c := ToLower(candidate);
    var q := ToLower(query);
    if OccursIn(q, c) {
      var i :| OccursAt(q, c, i);
      assert c[0..|q|] == c;
    }
    if OccursIn(c, q) {
      var i :| OccursAt(c, q, i);
      assert q[0..|c|] == q;
    }
  }

  /** Different countries do not match: "Kenya" is not taken for "India". */
  lemma KenyaDoesNotMatchIndia()
    ensures !NameMatches("Kenya", "India")
  {
    NameMatchesSameLength("Kenya", "India");
    assert LowerChar('K') == 'k' && LowerChar('I') == 'i';
    assert ToLower("Kenya")[0] != ToLower("India")[0];
  }

  // ---------------------------------------------------------------- lookup outcome

  /** One entry of the lookup service's `places`. */
  datatype Place = Place(placeName: Option<string>, state: Option<string>, stateAbbreviation: Option<string>)

  /** The lookup service's answer: `country` and `places`. */
  datatype ZipResponse = ZipResponse(country: Option<string>, places: seq<Place>)

  /** The country the lookup settles on: the API's name when it is a key of
      `countryStates`, otherwise the first key that matches it (a matching
      empty key is falsy, so the API's name is kept); kept only when the
      result is a key. */
  function ResolveCountryName(apiCountry: Option<string>, table: seq<StatesEntry>): (r: Option<string>)
    ensures r.Some? ==> r.value != "" && LookupStates(table, r.value).Some? && Truthy(apiCountry)
    ensures !Truthy(apiCountry) ==> r.None?
    ensures Truthy(apiCountry) && LookupStates(table, apiCountry.value).Some? ==> r == apiCountry
    ensures r.Some? && r != apiCountry ==> r.value in Keys(table) && NameMatches(r.value, apiCountry.value)
    ensures Truthy(apiCountry) && LookupStates(table, apiCountry.value).None? ==>
      var k := FindMatchIndex(Keys(table), apiCountry.value);
      && (k.Some? && Keys(table)[k.value] != "" ==> r == Some(Keys(table)[k.value]))
      && (k.None? || Keys(table)[k.value] == "" ==> r.None?)
  {
    var name :=
      if Truthy(apiCountry) && LookupStates(table, apiCountry.value).None? then
        match FindMatch(Keys(table), apiCountry.value)
        case Some(m) => if m != "" then Some(m) else apiCountry
        case None => apiCountry
      else apiCountry;
    if Truthy(name) && LookupStates(table, name.value).Some? then name else None
  }

  /** `place['state'] || place['state abbreviation']`. */
  function PlaceStateName(place: Place): (r: Option<string>)
    ensures Truthy(place.state) ==> r == place.state
    ensures !Truthy(place.state) ==> r == place.stateAbbreviation
    ensures Truthy(r) ==> r == place.state || r == place.stateAbbreviation
  {
    if Truthy(place.state) then place.state else place.stateAbbreviation
  }

  /** The fields a found place fills in; `code` is the lower-cased code of the
      resolved country when the `countries` list has it. */
  datatype Fill = Fill(city: Option<string>, country: Option<string>, code: Option<string>, state: Option<string>) {
    /** The `fieldsUpdated` flag: some form field was written. */
    predicate Updated() {
      city.Some? || country.Some? || state.Some?
    }
  }

  /** The state a place fills in for a resolved country: the first of its
      states that matches the place's state name, unless that is empty. */
  function MatchedState(place: Place, country: string, table: seq<StatesEntry>): (r: Option<string>)
    requires LookupStates(table, country).Some?
    ensures r.Some? ==> r.value != "" && r.value in LookupStates(table, country).value.states
    ensures r.Some? ==> LookupStates(table, country).value.hasStates && Truthy(PlaceStateName(place)) && NameMatches(r.value, PlaceStateName(place).value)
    ensures LookupStates(table, country).value.hasStates && Truthy(PlaceStateName(place)) ==>
      var m := FindMatch(LookupStates(table, country).value.states, PlaceStateName(place).value);
      && (Truthy(m) ==> r == m)
      && (!Truthy(m) ==> r.None?)
  {
    var entry := LookupStates(table, country).value;
    var stateName := PlaceStateName(place);
    if entry.hasStates && Truthy(stateName) then
      var m := FindMatch(entry.states, stateName.value);
      if Truthy(m) then m else None
    else None
  }

  function PlaceFill(place: Place, apiCountry: Option<string>, countries: seq<Country>, table: seq<StatesEntry>): (f: Fill)
    ensures f.city.Some? <==> Truthy(place.placeName)
    ensures f.city.Some? ==> f.city == place.placeName
    ensures f.country == ResolveCountryName(apiCountry, table)
    ensures f.code.Some? <==> f.country.Some? && FindCountryByName(countries, f.country.value).Some?
    ensures f.code.Some? ==> f.code == Some(ToLower(FindCountryByName(countries, f.country.value).value.code))
    ensures f.state.Some? ==> f.country.Some?
    ensures f.country.Some? ==> f.state == MatchedState(place, f.country.value, table)
  {
    var country := ResolveCountryName(apiCountry, table);
    var code :=
      if country.Some? then
        match FindCountryByName(countries, country.value)
        case Some(c) => Some(ToLower(c.code))
        case None => None
      else None;
    var state := if country.Some? then MatchedState(place, country.value, table) else None;
    Fill(if Truthy(place.placeName) then place.placeName else None, country, code, state)
  }

  /** The form values after writing the filled fields. */
  function ApplyFill(values: FormValues, f: Fill): (r: FormValues)
    ensures r.(city := values.city, country := values.country, state := values.state) == values
    ensures f.city.Some? ==> r.city == f.city.value
    ensures f.city.None? ==> r.city == values.city
    ensures f.country.Some? ==> r.country == f.country.value
    ensures f.country.None? ==> r.country == values.country
    ensures f.state.Some? ==> r.state == f.state.value
    ensures f.state.None? ==> r.state == values.state
  {
    values.(city := f.city.GetOr(values.city),
            country := f.country.GetOr(values.country),
            state := f.state.GetOr(values.state))
  }

  /** A state list holding an empty entry: the empty entry matches any
      state name first, and being falsy it is not written, so the state the
      form already holds is kept. */
  lemma EmptyMatchedStateKept(values: FormValues)
    requires values.state == "Goa"
    ensures var table := [StatesEntry("India", true, ["", "Kerala"])];
      var f := PlaceFill(Place(Some("Kochi"), Some("Kerala"), None), Some("India"), [], table);
      f.state.None? && ApplyFill(values, f).state == "Goa" && ApplyFill(values, f).country == "India"
  {
    var table := [StatesEntry("India", true, ["", "Kerala"])];
    assert LookupStates(table, "India") == Some(table[0]);
    assert ToLower("") == "";
    assert NameMatches("", "Kerala");
    assert FindMatchIndex(["", "Kerala"], "Kerala") == Some(0);
  }

  /** A fill that updates nothing leaves the form values as they were. */
  lemma ApplyEmptyFill(values: FormValues, f: Fill)
    requires !f.Updated()
    ensures ApplyFill(values, f) == values
  {
  }

  /** A state is filled in only for a country that has states, and only with
      one of that country's states. */
  lemma FilledStateBelongsToCountry(place: Place, apiCountry: Option<string>, countries: seq<Country>, table: seq<StatesEntry>)
    ensures var f := PlaceFill(place, apiCountry, countries, table);
      f.state.Some? ==> CountryHasStates(table, f.country.value) && f.state.value != ""
  {
  }

  const NotAutoFilledMessage := "Location found but details could not be auto-filled. You can enter them manually."
  const LookupApiErrorMessage := "Unable to lookup pincode (API error). You can enter address details manually."
  const LookupNetworkMessage := "Network issue while looking up pincode. You can enter address details manually."
  const LookupFailedMessage := "Unable to lookup pincode. You can enter address details manually."

  /** The message a failed lookup shows: none for a 404 (the pincode is
      optional), one for any other status, one for a network failure, and
      one for anything else. */
  function LookupFailureMessage(e: JsError): (m: Option<string>)
    ensures m.None? <==> e.response.Some? && e.response.value.status == 404
    ensures e.response.Some? && e.response.value.status != 404 ==> m == Some(LookupApiErrorMessage)
    ensures e.response.None? && e.requestSent ==> m == Some(LookupNetworkMessage)
    ensures e.response.None? && !e.requestSent ==> m == Some(LookupFailedMessage)
  {
    if e.response.Some? then
      if e.response.value.status == 404 then None else Some(LookupApiErrorMessage)
    else if e.requestSent then Some(LookupNetworkMessage)
    else Some(LookupFailedMessage)
  }

  /** The four lookup messages are told apart. */
  lemma LookupMessagesDistinct(e1: JsError, e2: JsError)
    requires LookupFailureMessage(e1).Some? && LookupFailureMessage(e1) == LookupFailureMessage(e2)
    ensures e1.response.Some? <==> e2.response.Some?
    ensures e1.response.None? ==> e1.requestSent == e2.requestSent
    ensures LookupFailureMessage(e1).value != NotAutoFilledMessage
  {
  }

  // ---------------------------------------------------------------- geolocation

  /** The geolocation service's answer: `country_code` and `country_name`. */
  datatype IpLocation = IpLocation(countryCode: Option<string>, countryName: Option<string>)

  const UaeName := "United Arab Emirates"

  /** What the geolocation effect writes: the selected country, the country
      code and the form's country, each `None` when left as it was. */
  datatype GeoEffect = GeoEffect(selected: Option<string>, code: Option<string>, formCountry: Option<string>)

  function Choose(name: string, code: string): GeoEffect {
    GeoEffect(Some(name), Some(code), Some(name))
  }

  /** The UAE entry, by code, else by name. */
  function DefaultCountry(countries: seq<Country>): (r: Option<Country>)
    ensures r.Some? ==> r.value in countries && (r.value.code == "AE" || r.value.name == UaeName)
    ensures r.None? ==> FindCountryByCode(countries, "AE").None?
    ensures FindCountryByCode(countries, "AE").Some? ==> r == FindCountryByCode(countries, "AE")
    ensures FindCountryByCode(countries, "AE").None? ==> r == FindCountryByName(countries, UaeName)
  {
    match FindCountryByCode(countries, "AE")
    case Some(c) => Some(c)
    case None => FindCountryByName(countries, UaeName)
  }

  /** Falling back to the UAE entry; without one the fallback itself throws
      before writing anything. */
  function FallbackEffect(countries: seq<Country>): (e: GeoEffect)
    ensures DefaultCountry(countries).None? ==> e == GeoEffect(None, None, None)
    ensures DefaultCountry(countries).Some? ==>
      var d := DefaultCountry(countries).value;
      e.selected == Some(d.name) && e.formCountry == Some(d.name) && e.code == Some(ToLower(d.code))
  {
    match DefaultCountry(countries)
    case Some(d) => Choose(d.name, ToLower(d.code))
    case None => GeoEffect(None, None, None)
  }

  /** A listed entry's name is in `countries.map(c => c.name)`. */
  lemma {:induction false} NameListed(countries: seq<Country>, c: Country)
    requires c in countries
    ensures c.name in CountryNames(countries)
  {
    var i :| 0 <= i < |countries| && countries[i] == c;
    assert CountryNames(countries)[i] == c.name;
  }

  /** The entries the geolocation step can pick are all listed by name. */
  lemma FoundNamesListed(countries: seq<Country>, fetched: Result<IpLocation, JsError>)
    ensures FindCountryByCode(countries, "AE").Some? ==> FindCountryByCode(countries, "AE").value.name in CountryNames(countries)
    ensures DefaultCountry(countries).Some? ==> DefaultCountry(countries).value.name in CountryNames(countries)
    ensures fetched.Ok? && Truthy(fetched.value.countryCode) && FindCountryByCode(countries, ToUpper(fetched.value.countryCode.value)).Some? ==>
      FindCountryByCode(countries, ToUpper(fetched.value.countryCode.value)).value.name in CountryNames(countries)
  {
    if FindCountryByCode(countries, "AE").Some? {
      NameListed(countries, FindCountryByCode(countries, "AE").value);
    }
    if DefaultCountry(countries).Some? {
      NameListed(countries, DefaultCountry(countries).value);
    }
    if fetched.Ok? && Truthy(fetched.value.countryCode) && FindCountryByCode(countries, ToUpper(fetched.value.countryCode.value)).Some? {
      NameListed(countries, FindCountryByCode(countries, ToUpper(fetched.value.countryCode.value)).value);
    }
  }

  /** The effect of the geolocation step for what the service answered:
      whatever it selects, and whatever it writes to the form, is a listed
      country's name; a failed fetch gives the fallback. */
  function GeolocationEffect(countries: seq<Country>, fetched: Result<IpLocation, JsError>): (e: GeoEffect)
    ensures fetched.Err? ==> e == FallbackEffect(countries)
    ensures e.selected.Some? ==> e.selected.value in CountryNames(countries)
    ensures e.formCountry.Some? ==> e.formCountry.value in CountryNames(countries)
  {
    FoundNamesListed(countries, fetched);
    match fetched
    case Err(_) => FallbackEffect(countries)
    case Ok(loc) =>
      var uae := FindCountryByCode(countries, "AE");
      if (loc.countryCode == Some("AE") || loc.countryName == Some(UaeName)) && uae.Some? then
        Choose(uae.value.name, "ae")
      else if Truthy(loc.countryName) && loc.countryName.value in CountryNames(countries) then
        if loc.countryCode.Some? then Choose(loc.countryName.value, ToLower(loc.countryCode.value))
        // `country_code.toLowerCase()` throws after the selection was written
        else if DefaultCountry(countries).Some? then FallbackEffect(countries)
        else GeoEffect(loc.countryName, None, None)
      else if Truthy(loc.countryCode) then
        match FindCountryByCode(countries, ToUpper(loc.countryCode.value))
        case Some(c) => Choose(c.name, ToLower(loc.countryCode.value))
        case None => FallbackEffect(countries)
      else FallbackEffect(countries)
  }

  /** With a UAE entry in the list, the country is chosen in this order: UAE
      when the service says AE or names UAE; else the reported name when it
      is listed (and a code came with it); else the entry whose code is the
      upper-cased reported code; else UAE. A failed fetch also gives UAE. */
  lemma GeolocationOrder(countries: seq<Country>, fetched: Result<IpLocation, JsError>)
    requires FindCountryByCode(countries, "AE").Some?
    ensures var uae := FindCountryByCode(countries, "AE").value;
      var fallback := Choose(uae.name, ToLower(uae.code));
      var e := GeolocationEffect(countries, fetched);
      && (fetched.Err? ==> e == fallback)
      && (fetched.Ok? ==>
            var loc := fetched.value;
            var named := Truthy(loc.countryName) && loc.countryName.value in CountryNames(countries);
            var byCode := if Truthy(loc.countryCode) then FindCountryByCode(countries, ToUpper(loc.countryCode.value)) else None;
            if loc.countryCode == Some("AE") || loc.countryName == Some(UaeName) then e == Choose(uae.name, "ae")
            else if named && loc.countryCode.Some? then e == Choose(loc.countryName.value, ToLower(loc.countryCode.value))
            else if named then e == fallback
            else if byCode.Some? then e == Choose(byCode.value.name, ToLower(loc.countryCode.value))
            else e == fallback)
      && uae.code == "AE" && fallback == Choose(uae.name, "ae")
  {
    var uae := FindCountryByCode(countries, "AE").value;
    assert ToLower(uae.code) == "ae";
  }

  /** Whenever the geolocation step writes a country code, it also writes the
      same country to the selection and the form. */
  lemma GeolocationConsistent(countries: seq<Country>, fetched: Result<IpLocation, JsError>)
    ensures var e := GeolocationEffect(countries, fetched);
      e.code.Some? ==> e.selected.Some? && e.selected == e.formCountry
  {
  }
}
