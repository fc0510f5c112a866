/** The business-setup page's state and handlers: the pincode lookup, the
    submit handler, the geolocation step and the country selector. Each
    handler writes the form fields and page flags one at a time, in the
    page's order, and is proved against the rules in `BusinessRules`. */
module BusinessSetupPage {
  import opened JsRuntime
  import opened JsStrings
  import opened BusinessRules

  /** A request to the postal-code lookup service: `/{apiCode}/{pincode}`. */
  datatype LookupRequest = LookupRequest(apiCode: string, pincode: string)

  /** The business-creation endpoint's answer. */
  datatype SubmitResponse = SubmitResponse(businessId: Option<string>)

  /** The lookup reaches the lookup service: the pincode passes the length
      gate and is not a hit in the UAE table. */
  predicate SendsLookup(pincode: string, countryCode: string): (r: bool)
    ensures r ==> PassesLengthGate(pincode, countryCode)
    ensures PassesLengthGate(pincode, countryCode) && countryCode != "ae" && countryCode != "" ==> r
    ensures r && ApiCountryCode(countryCode) == "ae" ==> UaePostcodeCity(StripWhitespace(pincode)).None?
  {
    var api := ApiCountryCode(countryCode);
    PassesLengthGate(pincode, countryCode) && !(api == "ae" && UaePostcodeCity(FormatPincode(api, pincode)).Some?)
  }

  /** The page state the pincode lookup reads and writes. */
  datatype PincodeView = PincodeView(values: FormValues, selectedCountry: string, countryCode: string,
                                     pincodeLoading: bool, pincodeError: Option<string>,
                                     pincodeSuccess: bool, lookups: seq<LookupRequest>)

  /** What the pincode lookup does to the page state `s`, ending in `t`;
      `response` is what the lookup service answers if it is called. */
  predicate LookupEffect(s: PincodeView, pincode: string, countries: seq<Country>, table: seq<StatesEntry>,
                         response: Result<ZipResponse, JsError>, t: PincodeView)
  {
    var api := ApiCountryCode(s.countryCode);
    var formatted := FormatPincode(api, pincode);
    var uae := FindCountryByCode(countries, "AE");
    // empty input: nothing happens
    && (pincode == "" ==> t == s)
    // too short: only the success flag is cleared
    && (pincode != "" && !PassesLengthGate(pincode, s.countryCode) ==> t == s.(pincodeSuccess := false))
    && (PassesLengthGate(pincode, s.countryCode) ==> !t.pincodeLoading)
    // a hit in the UAE table: no request
    && (PassesLengthGate(pincode, s.countryCode) && api == "ae" && UaePostcodeCity(formatted).Some? ==>
          && t.lookups == s.lookups && t.pincodeSuccess && t.pincodeError.None?
          && t.values == s.values.(city := UaePostcodeCity(formatted).value,
                                   country := if uae.Some? then uae.value.name else s.values.country)
          && t.selectedCountry == (if uae.Some? then uae.value.name else s.selectedCountry)
          && t.countryCode == (if uae.Some? then "ae" else s.countryCode))
    // otherwise: one request, then the service's answer decides
    && (SendsLookup(pincode, s.countryCode) ==>
          && t.lookups == s.lookups + [LookupRequest(api, formatted)]
          && (response.Err? ==>
                && t.values == s.values && t.selectedCountry == s.selectedCountry && t.countryCode == s.countryCode
                && !t.pincodeSuccess && t.pincodeError == LookupFailureMessage(response.error))
          && (response.Ok? && |response.value.places| == 0 ==>
                && t.values == s.values && t.selectedCountry == s.selectedCountry && t.countryCode == s.countryCode
                && !t.pincodeSuccess && t.pincodeError.None?)
          && (response.Ok? && |response.value.places| > 0 ==>
                var f := PlaceFill(response.value.places[0], response.value.country, countries, table);
                && t.values == ApplyFill(s.values, f)
                && t.selectedCountry == f.country.GetOr(s.selectedCountry)
                && t.countryCode == f.code.GetOr(s.countryCode)
                && t.pincodeSuccess == f.Updated()
                && t.pincodeError == (if f.Updated() then None else Some(NotAutoFilledMessage))))
  }

  /** `LookupEffect` fixes the whole page state the lookup leaves: on every
      path each of the seven fields is given. */
  lemma LookupEffectDetermined(s: PincodeView, pincode: string, countries: seq<Country>, table: seq<StatesEntry>,
                               response: Result<ZipResponse, JsError>, t1: PincodeView, t2: PincodeView)
    requires LookupEffect(s, pincode, countries, table, response, t1)
    requires LookupEffect(s, pincode, countries, table, response, t2)
    ensures t1 == t2
  {
  }

  /** The API's country is no key, and the first key that matches it is truthy. */
  predicate ReplacedByMatch(apiCountry: Option<string>, table: seq<StatesEntry>) {
    Truthy(apiCountry) && LookupStates(table, apiCountry.value).None? && Truthy(FindMatch(Keys(table), apiCountry.value))
  }

  class BusinessSetupForm {
    var values: FormValues
    var countryCode: string
    var selectedCountry: string
    var loading: bool
    var error: Option<string>
    var successMessage: Option<string>
    var geoLocationLoading: bool
    var pincodeLoading: bool
    var pincodeError: Option<string>
    var pincodeSuccess: bool
    var storedBusiness: Option<SubmitResponse>   // localStorage.businessDetails
    var navigations: seq<string>                 // routes passed to navigate, in order
    var submissions: seq<BusinessPayload>        // payloads posted, in order
    var lookups: seq<LookupRequest>              // postal-code lookups sent, in order

    /** The fields the pincode lookup reads and writes, as one value. */
    function PincodeState(): PincodeView
      reads this
    {
      PincodeView(values, selectedCountry, countryCode, pincodeLoading, pincodeError, pincodeSuccess, lookups)
    }

    constructor ()
      ensures values == InitialValues && countryCode == "in" && selectedCountry == "India"
      ensures !loading && error.None? && successMessage.None? && geoLocationLoading
      ensures !pincodeLoading && pincodeError.None? && !pincodeSuccess
      ensures storedBusiness.None? && navigations == [] && submissions == [] && lookups == []
    {
      values := InitialValues;
      countryCode := "in";
      selectedCountry := "India";
      loading := false;
      error := None;
      successMessage := None;
      geoLocationLoading := true;
      pincodeLoading := false;
      pincodeError := None;
      pincodeSuccess := false;
      storedBusiness := None;
      navigations := [];
      submissions := [];
      lookups := [];
    }

    /** The country selector: the form's country and the selection follow
        the choice, the code follows it when the list has the country; the
        chosen state is left as it was. */
    method OnCountryChange(countries: seq<Country>, name: string)
      modifies this`values, this`selectedCountry, this`countryCode
      ensures values == old(values).(country := name)
      ensures selectedCountry == name
      ensures countryCode == (match FindCountryByName(countries, name)
                              case Some(c) => ToLower(c.code)
                              case None => old(countryCode))
    {
      values := values.(country := name);
      selectedCountry := name;
      var country := FindCountryByName(countries, name);
      if country.Some? {
        countryCode := ToLower(country.value.code);
      }
    }

    /** Writes the UAE default; reports whether the list had one. */
    method ApplyDefaultCountry(countries: seq<Country>) returns (applied: bool)
      modifies this`values, this`selectedCountry, this`countryCode
      ensures applied <==> DefaultCountry(countries).Some?
      ensures applied ==> selectedCountry == DefaultCountry(countries).value.name
                          && countryCode == ToLower(DefaultCountry(countries).value.code)
                          && values == old(values).(country := DefaultCountry(countries).value.name)
      ensures !applied ==> values == old(values) && selectedCountry == old(selectedCountry) && countryCode == old(countryCode)
    {
      var d := DefaultCountry(countries);
      applied := d.Some?;
      if applied {
        selectedCountry := d.value.name;
        countryCode := ToLower(d.value.code);
        values := values.(country := d.value.name);
      }
    }

    /** The geolocation step run on mount; `fetched` is the service's answer. */
    method FetchLocation(countries: seq<Country>, fetched: Result<IpLocation, JsError>)
      modifies this`values, this`selectedCountry, this`countryCode, this`geoLocationLoading
      ensures var e := GeolocationEffect(countries, fetched);
        && selectedCountry == e.selected.GetOr(old(selectedCountry))
        && countryCode == e.code.GetOr(old(countryCode))
        && values == old(values).(country := e.formCountry.GetOr(old(values).country))
      ensures !geoLocationLoading
    {
      geoLocationLoading := true;
      var threw := fetched.Err?;
      if !threw {
        var loc := fetched.value;
        var uae := FindCountryByCode(countries, "AE");
        if (loc.countryCode == Some("AE") || loc.countryName == Some(UaeName)) && uae.Some? {
          selectedCountry := uae.value.name;
          countryCode := "ae";
          values := values.(country := uae.value.name);
        } else if Truthy(loc.countryName) && loc.countryName.value in CountryNames(countries) {
          selectedCountry := loc.countryName.value;
          if loc.countryCode.None? {
            threw := true;
          } else {
            countryCode := ToLower(loc.countryCode.value);
            values := values.(country := loc.countryName.value);
          }
        } else if Truthy(loc.countryCode) {
          var byCode := FindCountryByCode(countries, ToUpper(loc.countryCode.value));
          if byCode.Some? {
            selectedCountry := byCode.value.name;
            countryCode := ToLower(loc.countryCode.value);
            values := values.(country := byCode.value.name);
          } else {
            var applied := ApplyDefaultCountry(countries);
            threw := !applied;
          }
        } else {
          var applied := ApplyDefaultCountry(countries);
          threw := !applied;
        }
      }
      if threw {
        var _ := ApplyDefaultCountry(countries);
      }
      geoLocationLoading := false;
    }

    /** The country the lookup service names, or the first table key that
        matches it when the service's spelling is not a key itself. */
    method ResolveCountry(apiCountry: Option<string>, table: seq<StatesEntry>) returns (name: Option<string>)
      ensures Truthy(name) && LookupStates(table, name.value).Some? <==> ResolveCountryName(apiCountry, table).Some?
      ensures ResolveCountryName(apiCountry, table).Some? ==> name == ResolveCountryName(apiCountry, table)
      ensures ReplacedByMatch(apiCountry, table) ==> name == FindMatch(Keys(table), apiCountry.value)
      ensures !ReplacedByMatch(apiCountry, table) ==> name == apiCountry
    {
      name := apiCountry;
      if Truthy(name) && LookupStates(table, name.value).None? {
        var matching := FindMatch(Keys(table), name.value);
        if Truthy(matching) {
          name := matching;
        }
      }
    }

    /** Writes a resolved country, its code and the matching state. */
    method FillCountry(place: Place, apiCountry: Option<string>, country: string, countries: seq<Country>, table: seq<StatesEntry>)
      requires ResolveCountryName(apiCountry, table) == Some(country)
      modifies this`values, this`selectedCountry, this`countryCode
      ensures var f := PlaceFill(place, apiCountry, countries, table);
        && values == old(values).(country := country, state := f.state.GetOr(old(values).state))
        && selectedCountry == country
        && countryCode == f.code.GetOr(old(countryCode))
    {
      values := values.(country := country);
      selectedCountry := country;
      var countryObj := FindCountryByName(countries, country);
      if countryObj.Some? {
        countryCode := ToLower(countryObj.value.code);
      }
      var entry := LookupStates(table, country).value;
      if entry.hasStates {
        var stateName := PlaceStateName(place);
        if Truthy(stateName) {
          var matchingState := FindMatch(entry.states, stateName.value);
          if Truthy(matchingState) {
            values := values.(state := matchingState.value);
          }
        }
      }
    }

    /** Writes what a found place fills in, in the page's order, and reports
        through the flags whether anything was filled. */
    method ApplyPlace(place: Place, apiCountry: Option<string>, countries: seq<Country>, table: seq<StatesEntry>)
      modifies this`values, this`selectedCountry, this`countryCode, this`pincodeSuccess, this`pincodeError
      ensures var f := PlaceFill(place, apiCountry, countries, table);
        && values == ApplyFill(old(values), f)
        && selectedCountry == f.country.GetOr(old(selectedCountry))
        && countryCode == f.code.GetOr(old(countryCode))
        && (f.Updated() ==> pincodeSuccess && pincodeError == old(pincodeError))
        && (!f.Updated() ==> pincodeSuccess == old(pincodeSuccess) && pincodeError == Some(NotAutoFilledMessage))
    {
      ghost var f := PlaceFill(place, apiCountry, countries, table);
      var fieldsUpdated := false;
      if Truthy(place.placeName) {
        values := values.(city := place.placeName.value);
        fieldsUpdated := true;
      }
      var countryName := ResolveCountry(apiCountry, table);
      if Truthy(countryName) && LookupStates(table, countryName.value).Some? {
        FillCountry(place, apiCountry, countryName.value, countries, table);
        fieldsUpdated := true;
      }
      assert fieldsUpdated <==> f.Updated();
      if fieldsUpdated {
        pincodeSuccess := true;
      } else {
        pincodeError := Some(NotAutoFilledMessage);
      }
    }

    /** The pincode lookup; `response` is what the lookup service answers if
        it is called. */
    method HandlePincodeLookup(pincode: string, countries: seq<Country>, table: seq<StatesEntry>,
                               response: Result<ZipResponse, JsError>)
      modifies this`values, this`selectedCountry, this`countryCode, this`pincodeLoading,
               this`pincodeError, this`pincodeSuccess, this`lookups
      ensures LookupEffect(old(PincodeState()), pincode, countries, table, response, PincodeState())
    {
      if pincode == "" {
        return;
      }
      pincodeSuccess := false;
      var minLength := MinPincodeLength(countryCode);
      if |pincode| < minLength {
        return;
      }
      pincodeLoading := true;
      pincodeError := None;
      var api := ApiCountryCode(countryCode);
      var formatted := pincode;
      if api == "ca" {
        formatted := StripWhitespace(pincode);
      } else if api == "gb" {
        formatted := StripWhitespace(pincode);
      } else if api == "ae" {
        formatted := StripWhitespace(pincode);
        var city := UaePostcodeCity(formatted);
        if city.Some? {
          values := values.(city := city.value);
          var uae := FindCountryByCode(countries, "AE");
          if uae.Some? {
            values := values.(country := uae.value.name);
            selectedCountry := uae.value.name;
            countryCode := "ae";
          }
          pincodeSuccess := true;
          pincodeLoading := false;
          return;
        }
      }
      lookups := lookups + [LookupRequest(api, formatted)];
      if response.Err? {
        var message := LookupFailureMessage(response.error);
        if message.Some? {
          pincodeError := message;
        }
      } else if |response.value.places| > 0 {
        ApplyPlace(response.value.places[0], response.value.country, countries, table);
      }
      pincodeLoading := false;
    }

    /** The pincode field's change handler: the new value is written, the
        success flag is cleared, and five or more characters start a lookup. */
    method OnPincodeChange(value: string, countries: seq<Country>, table: seq<StatesEntry>,
                           response: Result<ZipResponse, JsError>)
      modifies this`values, this`selectedCountry, this`countryCode, this`pincodeLoading,
               this`pincodeError, this`pincodeSuccess, this`lookups
      ensures values.pincode == value
      ensures |value| < 5 ==>
        && values == old(values).(pincode := value) && !pincodeSuccess
        && selectedCountry == old(selectedCountry) && countryCode == old(countryCode)
        && pincodeLoading == old(pincodeLoading) && pincodeError == old(pincodeError) && lookups == old(lookups)
      ensures |value| >= 5 && SendsLookup(value, old(countryCode)) ==>
        lookups == old(lookups) + [LookupRequest(ApiCountryCode(old(countryCode)), FormatPincode(ApiCountryCode(old(countryCode)), value))]
      ensures !SendsLookup(value, old(countryCode)) ==> lookups == old(lookups)
      ensures |value| >= 5 ==>
        LookupEffect(old(PincodeState()).(values := old(values).(pincode := value), pincodeSuccess := false),
                     value, countries, table, response, PincodeState())
    {
      values := values.(pincode := value);
      if pincodeSuccess {
        pincodeSuccess := false;
      }
      if |value| >= 5 {
        HandlePincodeLookup(value, countries, table, response);
      }
    }

    /** The pincode field's blur handler: five or more characters start a lookup. */
    method OnPincodeBlur(value: string, countries: seq<Country>, table: seq<StatesEntry>,
                         response: Result<ZipResponse, JsError>)
      modifies this`values, this`selectedCountry, this`countryCode, this`pincodeLoading,
               this`pincodeError, this`pincodeSuccess, this`lookups
      ensures |value| < 5 ==>
        && values == old(values) && pincodeSuccess == old(pincodeSuccess)
        && selectedCountry == old(selectedCountry) && countryCode == old(countryCode)
        && pincodeLoading == old(pincodeLoading) && pincodeError == old(pincodeError) && lookups == old(lookups)
      ensures |value| >= 5 && SendsLookup(value, old(countryCode)) ==>
        lookups == old(lookups) + [LookupRequest(ApiCountryCode(old(countryCode)), FormatPincode(ApiCountryCode(old(countryCode)), value))]
      ensures !SendsLookup(value, old(countryCode)) ==> lookups == old(lookups)
      ensures |value| >= 5 ==> LookupEffect(old(PincodeState()), value, countries, table, response, PincodeState())
    {
      if |value| >= 5 {
        HandlePincodeLookup(value, countries, table, response);
      }
    }

    /** The submit handler; `response` is the business-creation endpoint's answer. */
    method OnSubmit(table: seq<StatesEntry>, response: Result<SubmitResponse, JsError>)
      modifies this`loading, this`error, this`successMessage, this`storedBusiness, this`navigations, this`submissions
      ensures submissions == old(submissions) + [BuildPayload(values, table)]
      ensures !loading
      ensures response.Ok? && Truthy(response.value.businessId) ==>
        && error.None? && successMessage == Some(SubmitSuccessMessage)
        && storedBusiness == Some(response.value) && navigations == old(navigations) + [DashboardRoute]
      ensures response.Ok? && !Truthy(response.value.businessId) ==>
        && error == Some(NoBusinessIdMessage)
        && successMessage == old(successMessage) && storedBusiness == old(storedBusiness) && navigations == old(navigations)
      ensures response.Err? ==>
        && error == Some(SubmitErrorMessage(response.error))
        && successMessage == old(successMessage) && storedBusiness == old(storedBusiness) && navigations == old(navigations)
    {
      loading := true;
      error := None;
      var payload := BuildPayload(values, table);
      submissions := submissions + [payload];
      var failure: Option<JsError> := None;
      if response.Err? {
        failure := Some(response.error);
      } else if Truthy(response.value.businessId) {
        storedBusiness := Some(response.value);
        error := None;
        successMessage := Some(SubmitSuccessMessage);
        navigations := navigations + [DashboardRoute];
      } else {
        failure := Some(ThrownError(NoBusinessIdMessage));
      }
      if failure.Some? {
        error := Some(SubmitErrorMessage(failure.value));
        MissingBusinessIdMessage();
      }
      loading := false;
    }
  }
}
