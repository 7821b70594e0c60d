/** The client's endpoint table and the development-mode URL prefix. */
module ApiConfig {
  import opened Strings

  /** Where the API is served in development. */
  const DevBaseUrl := "http://localhost:5000"

  /** `API_BASE_URL`: the development server, or relative URLs in production. */
  function ApiBaseUrl(isDevelopment: bool): (base: string)
    ensures isDevelopment ==> base == "http://localhost:5000"
    ensures !isDevelopment ==> base == ""
  {
    if isDevelopment then DevBaseUrl else ""
  }

  const LoginUrl := "/api/login"
  const RegisterUrl := "/api/register"
  const LogoutUrl := "/api/logout"
  const UserUrl := "/api/user"
  const VenuesUrl := "/api/venues"

  /** The fixed entries of `API_ENDPOINTS`. */
  const Endpoints := [LoginUrl, RegisterUrl, LogoutUrl, UserUrl, VenuesUrl]

  /** `API_ENDPOINTS.VENUE_BY_ID(id)`. */
  function VenueById(id: string): (url: string)
    ensures url == VenuesUrl + "/" + id
  {
    "/api/venues/" + id
  }

  /** `getApiUrl(endpoint)`. */
  function GetApiUrl(isDevelopment: bool, endpoint: string): (url: string)
    ensures EndsWith(url, endpoint)
    ensures isDevelopment ==> url == "http://localhost:5000" + endpoint
    ensures !isDevelopment ==> url == endpoint
  {
    if isDevelopment then ApiBaseUrl(isDevelopment) + endpoint else endpoint
  }

  /** The endpoints are pairwise distinct and all lie under `/api/`. */
  lemma EndpointsWellFormed()
    ensures forall i, j :: 0 <= i < j < |Endpoints| ==> Endpoints[i] != Endpoints[j]
    ensures forall i :: 0 <= i < |Endpoints| ==> StartsWith(Endpoints[i], "/api/")
  {
    assert LoginUrl[5] == 'l' && RegisterUrl[5] == 'r' && LogoutUrl[5] == 'l' && UserUrl[5] == 'u' && VenuesUrl[5] == 'v';
    assert LoginUrl[7] == 'g' && LogoutUrl[7] == 'g' && LoginUrl[8] == 'i' && LogoutUrl[8] == 'o';
  }

  /** Every venue URL lies under the listing URL and differs from each fixed endpoint. */
  lemma VenueByIdUnderVenues(id: string)
    ensures StartsWith(VenueById(id), VenuesUrl + "/")
    ensures VenueById(id) !in Endpoints
  {
    var u := VenueById(id);
    assert |u| >= 12 && u[11] == '/';
    assert u[5] == 'v';
  }
}
