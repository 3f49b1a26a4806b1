/**
 * The pure part of `fetch_instagram_profile` (app/services/brightdata.py):
 * the configuration check, the scrape request it builds, the check on the
 * decoded reply and the projection of the first record onto an
 * InstagramProfile.
 */
module BrightData {
  import opened Wrappers
  import opened Json
  import PyInt

  /** The two settings the call reads; each is a `str | None`. */
  datatype Settings = Settings(apiToken: Option<string>, datasetId: Option<string>)

  /** The setting is neither None nor "", so `not value` is false. */
  predicate IsSet(v: Option<string>) {
    v.Some? && |v.value| > 0
  }

  predicate Configured(settings: Settings) {
    IsSet(settings.apiToken) && IsSet(settings.datasetId)
  }

  /** BrightDataError, with the message it is raised with. */
  datatype BrightDataError = BrightDataError(message: string)

  const NotConfigured := BrightDataError("Bright Data credentials or dataset ID are not configured")
  const InvalidResponse := BrightDataError("Bright Data returned empty or invalid response")

  datatype Result<+T> = Ok(value: T) | Err(error: BrightDataError)

  /** The POST the call sends: its URL, its headers and its JSON body. */
  datatype Request = Request(url: string, headers: map<string, string>, body: Json)

  const UrlPrefix := "https://api.brightdata.com/datasets/v3/scrape?dataset_id="
  const UrlSuffix := "&notify=false&include_errors=true&type=discover_new&discover_by=user_name"
  const BearerPrefix := "Bearer "

  /** The dataset id a scrape URL carries, when the URL has the scrape endpoint's shape. */
  function DatasetIdOf(url: string): Option<string> {
    if |url| >= |UrlPrefix| + |UrlSuffix| && url[..|UrlPrefix|] == UrlPrefix && url[|url| - |UrlSuffix|..] == UrlSuffix
    then Some(url[|UrlPrefix|..|url| - |UrlSuffix|])
    else None
  }

  /** The token a bearer Authorization header carries. */
  function BearerToken(headers: map<string, string>): Option<string> {
    if "Authorization" in headers && |headers["Authorization"]| >= |BearerPrefix|
       && headers["Authorization"][..|BearerPrefix|] == BearerPrefix
    then Some(headers["Authorization"][|BearerPrefix|..])
    else None
  }

  /**
   * The user name a body asks for, provided the body is `{"input": [{"user_name": u}]}`
   * exactly: one key, a one-element batch, one field in the entry.
   */
  function RequestedUser(body: Json): Option<string> {
    if body.Object? && body.fields.Keys == {"input"}
       && body.fields["input"].List? && |body.fields["input"].elems| == 1
       && body.fields["input"].elems[0].Object?
       && body.fields["input"].elems[0].fields.Keys == {"user_name"}
       && body.fields["input"].elems[0].fields["user_name"].Str?
    then Some(body.fields["input"].elems[0].fields["user_name"].s)
    else None
  }

  /**
   * Lines 25-42: fail with BrightDataError when the token or the dataset id is
   * missing or empty; otherwise build the URL, the body and the headers.
   */
  function BuildRequest(settings: Settings, username: string): (r: Result<Request>)
    ensures r.Err? <==> !Configured(settings)
    ensures r.Err? ==> r.error == NotConfigured
    ensures r.Ok? ==> RequestedUser(r.value.body) == Some(username)
    ensures r.Ok? ==> DatasetIdOf(r.value.url) == Some(settings.datasetId.value)
    ensures r.Ok? ==> BearerToken(r.value.headers) == Some(settings.apiToken.value)
    ensures r.Ok? ==> r.value.headers.Keys == {"Authorization", "Content-Type"}
                      && r.value.headers["Content-Type"] == "application/json"
  {
    if !Configured(settings) then
      Err(NotConfigured)
    else
      var url := UrlPrefix + settings.datasetId.value + UrlSuffix;
      var body := Object(map["input" := List([Object(map["user_name" := Str(username)])])]);
      var headers := map["Authorization" := BearerPrefix + settings.apiToken.value,
                         "Content-Type" := "application/json"];
      assert url[..|UrlPrefix|] == UrlPrefix;
      assert url[|url| - |UrlSuffix|..] == UrlSuffix;
      assert url[|UrlPrefix|..|url| - |UrlSuffix|] == settings.datasetId.value;
      Ok(Request(url, headers, body))
  }

  /** The InstagramProfile fields, each holding the value the call passes for it. */
  datatype Profile = Profile(
    username: Json,
    fullName: Json,
    bio: Json,
    followers: Option<int>,
    following: Option<int>,
    postsCount: Option<int>,
    isVerified: Json,
    isBusiness: Json,
    profileUrl: Json,
    raw: map<string, Json>)

  /** `rec.get(keys[0]), rec.get(keys[1]), ...` */
  function Lookups(rec: map<string, Json>, keys: seq<string>): seq<Json> {
    seq(|keys|, i requires 0 <= i < |keys| => Get(rec, keys[i]))
  }

  const UsernameKeys := ["account", "username"]
  const FullNameKeys := ["profile_name", "full_name", "name"]
  const BioKeys := ["bio", "biography"]
  const ProfileUrlKeys := ["profile_url", "url"]
  const PostsCountKeys := ["posts_count", "posts"]

  /** Lines 56-76: the profile built from one record, which is kept as `raw` unchanged. */
  function Project(requested: string, rec: map<string, Json>): (p: Profile)
    ensures p.raw == rec
  {
    Profile(
      username := OrChain(Lookups(rec, UsernameKeys) + [Str(requested)]),
      fullName := OrChain(Lookups(rec, FullNameKeys)),
      bio := OrChain(Lookups(rec, BioKeys)),
      followers := PyInt.ToInt(Get(rec, "followers")),
      following := PyInt.ToInt(Get(rec, "following")),
      postsCount := PyInt.ToInt(OrChain(Lookups(rec, PostsCountKeys))),
      isVerified := GetOr(rec, "is_verified", Bool(false)),
      isBusiness := Or(GetOr(rec, "is_business_account", Bool(false)),
                       GetOr(rec, "is_professional_account", Bool(false))),
      profileUrl := OrChain(Lookups(rec, ProfileUrlKeys)),
      raw := rec)
  }

  /** A reply whose first element, if it has one, is a dict; `.get` on anything else raises AttributeError. */
  predicate FirstIsRecord(data: Json) {
    data.List? && |data.elems| > 0 ==> data.elems[0].Object?
  }

  /**
   * Lines 53-78: reject a decoded reply that is not a list or is an empty list;
   * otherwise project its first element and ignore the rest.
   */
  function Normalize(requested: string, data: Json): (r: Result<Profile>)
    requires FirstIsRecord(data)
    ensures r.Err? <==> !data.List? || |data.elems| == 0
    ensures r.Err? ==> r.error == InvalidResponse
    ensures r.Ok? ==> r.value.raw == data.elems[0].fields
  {
    if !data.List? || |data.elems| == 0 then
      Err(InvalidResponse)
    else
      Ok(Project(requested, data.elems[0].fields))
  }

  /**
   * `fetch_instagram_profile(username)` with the provider's answer to the POST
   * given as `provider`: unconfigured settings fail before any request is
   * built or sent; otherwise the decoded answer to the built request is normalised.
   */
  function FetchProfile(settings: Settings, username: string, provider: Request -> Json): (r: Result<Profile>)
    requires Configured(settings) ==> FirstIsRecord(provider(BuildRequest(settings, username).value))
    ensures !Configured(settings) ==> r == Err(NotConfigured)
    ensures Configured(settings) ==>
              BuildRequest(settings, username).Ok? && r == Normalize(username, provider(BuildRequest(settings, username).value))
  {
    match BuildRequest(settings, username)
    case Err(e) => Err(e)
    case Ok(request) => Normalize(username, provider(request))
  }

  // ---------------------------------------------------------------------------
  // Properties of the projection

  /** Only the first element of the reply matters; later elements are ignored. */
  lemma LaterElementsIgnored(requested: string, first: map<string, Json>, rest: seq<Json>, rest': seq<Json>)
    ensures Normalize(requested, List([Object(first)] + rest)) == Normalize(requested, List([Object(first)] + rest'))
    ensures Normalize(requested, List([Object(first)] + rest)) == Ok(Project(requested, first))
  {
  }

  /**
   * `username` is `account` if truthy, else `username` if truthy, else the
   * requested name; a non-empty request therefore always gives a truthy username.
   */
  lemma UsernameResolution(requested: string, rec: map<string, Json>)
    ensures var u := Project(requested, rec).username;
            && (Truthy(Get(rec, "account")) ==> u == Get(rec, "account"))
            && (!Truthy(Get(rec, "account")) && Truthy(Get(rec, "username")) ==> u == Get(rec, "username"))
            && (!Truthy(Get(rec, "account")) && !Truthy(Get(rec, "username")) ==> u == Str(requested))
    ensures |requested| > 0 ==> Truthy(Project(requested, rec).username)
  {
    var vals := Lookups(rec, UsernameKeys) + [Str(requested)];
    assert vals == [Get(rec, "account"), Get(rec, "username"), Str(requested)];
    if Truthy(Get(rec, "account")) {
      OrChainFirstTruthy(vals, 0);
    } else if Truthy(Get(rec, "username")) {
      OrChainFirstTruthy(vals, 1);
    } else if |requested| > 0 {
      OrChainFirstTruthy(vals, 2);
    } else {
      OrChainAllFalsy(vals);
    }
  }

  /** The value the two-alias chain `rec.get(k0) or rec.get(k1)` gives. */
  lemma TwoAliases(rec: map<string, Json>, k0: string, k1: string)
    ensures OrChain(Lookups(rec, [k0, k1])) == if Truthy(Get(rec, k0)) then Get(rec, k0) else Get(rec, k1)
  {
    var vals := Lookups(rec, [k0, k1]);
    assert vals == [Get(rec, k0), Get(rec, k1)];
    if Truthy(Get(rec, k0)) {
      OrChainFirstTruthy(vals, 0);
    } else if Truthy(Get(rec, k1)) {
      OrChainFirstTruthy(vals, 1);
    } else {
      assert !Truthy(vals[0]) && !Truthy(vals[1]);
      OrChainAllFalsy(vals);
    }
  }

  /**
   * `full_name` is the first truthy of `profile_name`, `full_name`, `name`;
   * when none is truthy it is the (falsy) value of `name`, None when `name` is absent.
   */
  lemma FullNameResolution(requested: string, rec: map<string, Json>)
    ensures var f := Project(requested, rec).fullName;
            && (Truthy(Get(rec, "profile_name")) ==> f == Get(rec, "profile_name"))
            && (!Truthy(Get(rec, "profile_name")) && Truthy(Get(rec, "full_name")) ==> f == Get(rec, "full_name"))
            && (!Truthy(Get(rec, "profile_name")) && !Truthy(Get(rec, "full_name")) ==> f == Get(rec, "name"))
    ensures "profile_name" !in rec && "full_name" !in rec && "name" !in rec ==> Project(requested, rec).fullName == Null
  {
    var vals := Lookups(rec, FullNameKeys);
    assert vals == [Get(rec, "profile_name"), Get(rec, "full_name"), Get(rec, "name")];
    if Truthy(Get(rec, "profile_name")) {
      OrChainFirstTruthy(vals, 0);
    } else if Truthy(Get(rec, "full_name")) {
      OrChainFirstTruthy(vals, 1);
    } else if Truthy(Get(rec, "name")) {
      OrChainFirstTruthy(vals, 2);
    } else {
      OrChainAllFalsy(vals);
    }
  }

  /** `bio` prefers `bio` over `biography`; `profile_url` prefers `profile_url` over `url`. */
  lemma BioAndUrlResolution(requested: string, rec: map<string, Json>)
    ensures Project(requested, rec).bio == if Truthy(Get(rec, "bio")) then Get(rec, "bio") else Get(rec, "biography")
    ensures Project(requested, rec).profileUrl ==
              if Truthy(Get(rec, "profile_url")) then Get(rec, "profile_url") else Get(rec, "url")
  {
    TwoAliases(rec, "bio", "biography");
    TwoAliases(rec, "profile_url", "url");
  }

  /**
   * `posts_count` is converted from `posts_count` only when that is truthy, so a
   * stored 0 (or "", or None) falls through to `posts`.
   */
  lemma PostsCountResolution(requested: string, rec: map<string, Json>)
    ensures Truthy(Get(rec, "posts_count")) ==> Project(requested, rec).postsCount == PyInt.ToInt(Get(rec, "posts_count"))
    ensures !Truthy(Get(rec, "posts_count")) ==> Project(requested, rec).postsCount == PyInt.ToInt(Get(rec, "posts"))
    ensures Get(rec, "posts_count") == Int(0) ==> Project(requested, rec).postsCount == PyInt.ToInt(Get(rec, "posts"))
  {
    TwoAliases(rec, "posts_count", "posts");
  }

  /**
   * `is_verified` is the stored value, False when the key is absent;
   * `is_business` is `is_business_account` (default False) when that is truthy,
   * otherwise `is_professional_account` (default False) as it is, so it is
   * truthy exactly when either business flag is.
   */
  lemma FlagResolution(requested: string, rec: map<string, Json>)
    ensures "is_verified" !in rec ==> Project(requested, rec).isVerified == Bool(false)
    ensures "is_verified" in rec ==> Project(requested, rec).isVerified == rec["is_verified"]
    ensures Truthy(GetOr(rec, "is_business_account", Bool(false))) ==>
              Project(requested, rec).isBusiness == GetOr(rec, "is_business_account", Bool(false))
    ensures !Truthy(GetOr(rec, "is_business_account", Bool(false))) ==>
              Project(requested, rec).isBusiness == GetOr(rec, "is_professional_account", Bool(false))
    ensures Truthy(Project(requested, rec).isBusiness) <==> Truthy(Get(rec, "is_business_account")) || Truthy(Get(rec, "is_professional_account"))
    ensures "is_business_account" !in rec && "is_professional_account" !in rec ==> Project(requested, rec).isBusiness == Bool(false)
  {
  }

  /** A count the provider sends as a decimal string, e.g. "100", is read as that number. */
  lemma CountsFromDecimalStrings(requested: string, rec: map<string, Json>, n: int)
    requires |PyInt.DecimalString(PyInt.Abs(n))| <= PyInt.MaxStrDigits
    ensures Get(rec, "followers") == Str(PyInt.IntToString(n)) ==> Project(requested, rec).followers == Some(n)
    ensures Get(rec, "following") == Str(PyInt.IntToString(n)) ==> Project(requested, rec).following == Some(n)
  {
    PyInt.ParseIntRoundTrip(n);
  }

  /** The record of the example below. */
  function AliceRecord(): map<string, Json> {
    map["account" := Str("alice"), "followers" := Str("100")]
  }

  lemma AliceProjection()
    ensures Project("alice", AliceRecord()).username == Str("alice")
    ensures Project("alice", AliceRecord()).followers == Some(100)
  {
    var rec := AliceRecord();
    assert Get(rec, "account") == Str("alice");
    assert Get(rec, "followers") == Str("100");
    UsernameResolution("alice", rec);
    PyInt.ToIntDecimalExamples();
  }

  /**
   * A reply `[{"account": "alice", "followers": "100"}]` gives username "alice",
   * 100 followers and the record itself as `raw`.
   */
  lemma AliceExample()
    ensures var r := Normalize("alice", List([Object(AliceRecord())]));
            && r.Ok? && r.value.username == Str("alice") && r.value.followers == Some(100)
            && r.value.raw == AliceRecord()
  {
    AliceProjection();
  }
}
