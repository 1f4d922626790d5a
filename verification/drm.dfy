/** DRM configuration as the adapter reads it from the backend's `/drm`
    endpoint: `GetDRMConfig` keeps only the first key system of an object
    shaped `drm_configs`; `GetDRMConfigJson` keeps the whole object for the
    modern property; the legacy property is a pipe-delimited string. */
module Drm {
  import opened Common
  import opened Json
  import opened Records

  /** The `license` object of a DRM system entry. */
  function LicenseFrom(license: Json): (l: DrmLicense)
    ensures StringMember(license, "server_url", "", l.serverUrl)
    ensures StringMember(license, "server_certificate", "", l.serverCertificate)
    ensures StringMember(license, "req_headers", "", l.reqHeaders)
    ensures StringMember(license, "req_data", "", l.reqData)
    ensures StringMember(license, "req_params", "", l.reqParams)
    ensures StringMember(license, "wrapper", "", l.wrapper)
    ensures StringMember(license, "unwrapper", "", l.unwrapper)
    ensures l.useHttpGetRequest == Some(Get(license, "use_http_get_request") == Some(JBool(true)))
  {
    StringOrMember(license, "server_url", "");
    StringOrMember(license, "server_certificate", "");
    StringOrMember(license, "req_headers", "");
    StringOrMember(license, "req_data", "");
    StringOrMember(license, "req_params", "");
    StringOrMember(license, "wrapper", "");
    StringOrMember(license, "unwrapper", "");
    BoolOrMember(license, "use_http_get_request", false);
    DrmLicense(
      StringOr(license, "server_url", ""),
      StringOr(license, "server_certificate", ""),
      StringOr(license, "req_headers", ""),
      StringOr(license, "req_data", ""),
      StringOr(license, "req_params", ""),
      Some(BoolOr(license, "use_http_get_request", false)),
      StringOr(license, "wrapper", ""),
      StringOr(license, "unwrapper", ""))
  }

  /** An empty license object differs from an absent one only in the GET
      flag, which it sets to false. */
  lemma EmptyLicenseObject()
    ensures LicenseFrom(JObject([])) == EmptyLicense.(useHttpGetRequest := Some(false))
  {
  }

  /** The configuration read from one `system: data` member. */
  function ConfigFrom(system: string, data: Json): (c: DrmConfig)
    ensures c.system == CString(system)
    ensures c.priority == Some(if GetInt(data, "priority").Some? then GetInt(data, "priority").value else 1)
    ensures GetObject(data, "license").None? ==> c.license == EmptyLicense
    ensures GetObject(data, "license").Some? ==>
      var license := JObject(GetObject(data, "license").value);
      && c.license.serverUrl == StringOr(license, "server_url", "")
      && c.license.reqHeaders == StringOr(license, "req_headers", "")
      && c.license.useHttpGetRequest == Some(BoolOr(license, "use_http_get_request", false))
  {
    var priority := match GetInt(data, "priority") case Some(p) => p case None => 1;
    var license := match GetObject(data, "license")
      case Some(m) => LicenseFrom(JObject(m))
      case None => EmptyLicense;
    DrmConfig(CString(system), Some(priority), license)
  }

  /** The members of `drm_configs` when it is an object. */
  function ConfigMembers(response: Response): Option<seq<(string, Json)>> {
    if response.Parsed? then GetObject(response.doc, "drm_configs") else None
  }

  /** `GetDRMConfig`: the first member of an object-shaped `drm_configs`;
      an empty config for an empty or unparseable response, a missing or
      non-object `drm_configs` (an array included), or an empty object. */
  function GetDrmConfig(response: Response): (c: DrmConfig)
    ensures ConfigMembers(response).None? ==> c == EmptyDrmConfig
    ensures ConfigMembers(response) == Some([]) ==> c == EmptyDrmConfig
    ensures ConfigMembers(response).Some? && |ConfigMembers(response).value| > 0 ==>
      var first := ConfigMembers(response).value[0];
      c == ConfigFrom(first.0, first.1)
  {
    match ConfigMembers(response)
    case None => EmptyDrmConfig
    case Some(members) =>
      if |members| == 0 then EmptyDrmConfig else ConfigFrom(members[0].0, members[0].1)
  }

  /** Only the first key system counts: the members after it are ignored. */
  lemma OnlyFirstSystemRead(system: string, data: Json, others: seq<(string, Json)>, rest: seq<(string, Json)>)
    ensures GetDrmConfig(Parsed(JObject([("drm_configs", JObject([(system, data)] + others))] + rest)))
         == GetDrmConfig(Parsed(JObject([("drm_configs", JObject([(system, data)]))])))
  {
  }

  /** The legacy array shape is not understood: it yields an empty config. */
  lemma ArrayShapedConfigsIgnored(items: seq<Json>)
    ensures GetDrmConfig(Parsed(JObject([("drm_configs", JArray(items))]))) == EmptyDrmConfig
  {
  }

  /** `GetDRMConfigJson`: a copy of `drm_configs` when it is an object, else
      an empty object. */
  function GetDrmConfigJson(response: Response): (j: Json)
    ensures j.JObject?
    ensures ConfigMembers(response).Some? ==> j.members == ConfigMembers(response).value
    ensures ConfigMembers(response).None? ==> j.members == []
  {
    match ConfigMembers(response)
    case Some(members) => JObject(members)
    case None => JObject([])
  }

  /** The legacy and the modern readings agree: the legacy config is empty
      exactly when the modern object has no members, and is otherwise read
      from that object's first member. */
  lemma ConfigAgreesWithJson(response: Response)
    ensures GetDrmConfigJson(response).members == [] ==> GetDrmConfig(response) == EmptyDrmConfig
    ensures GetDrmConfigJson(response).members != [] ==>
      var first := GetDrmConfigJson(response).members[0];
      GetDrmConfig(response) == ConfigFrom(first.0, first.1)
  {
  }

  /** The key system that may go without a license URL. */
  const ClearKey := "org.w3.clearkey"

  /** The `drm_legacy` value: `system|url`, plus `|headers` when there are
      headers, when both system and URL are set; the bare system for
      ClearKey without a URL; nothing otherwise. */
  function LegacyValue(c: DrmConfig): (v: Option<string>)
    ensures v.Some? <==> (c.system != "" && c.license.serverUrl != "") || c.system == ClearKey
    ensures c.license.serverUrl == "" && c.system == ClearKey ==> v == Some(ClearKey)
    ensures v.Some? ==> c.system <= v.value
  {
    if c.system != "" && c.license.serverUrl != "" then
      var base := c.system + "|" + c.license.serverUrl;
      Some(if c.license.reqHeaders != "" then base + "|" + c.license.reqHeaders else base)
    else if c.system != "" && c.system == ClearKey then Some(c.system)
    else None
  }

  /** `s` cut at every '|'. */
  function Fields(s: string): (f: seq<string>)
    ensures |f| > 0
  {
    if |s| == 0 then [""]
    else
      var rest := Fields(s[1..]);
      if s[0] == '|' then [""] + rest else [[s[0]] + rest[0]] + rest[1..]
  }

  lemma {:induction false} FieldsOfPlain(a: string)
    requires '|' !in a
    ensures Fields(a) == [a]
  {
    if |a| > 0 {
      assert a[0] in a;
      assert forall x :: x in a[1..] ==> x in a;
      FieldsOfPlain(a[1..]);
      assert [a[0]] + a[1..] == a;
    }
  }

  lemma {:induction false} FieldsJoin(a: string, b: string)
    requires '|' !in a
    ensures Fields(a + "|" + b) == [a] + Fields(b)
  {
    if |a| == 0 {
      assert a + "|" + b == "|" + b;
      assert ("|" + b)[1..] == b;
    } else {
      assert (a + "|" + b)[1..] == a[1..] + "|" + b;
      FieldsJoin(a[1..], b);
      assert [a[0]] + a[1..] == a;
    }
  }

  /** The legacy value splits back into its parts when none of them holds
      a '|'. */
  lemma LegacyValueSplits(c: DrmConfig)
    requires c.system != "" && c.license.serverUrl != ""
    requires '|' !in c.system && '|' !in c.license.serverUrl && '|' !in c.license.reqHeaders
    ensures Fields(LegacyValue(c).value)
         == [c.system, c.license.serverUrl] + (if c.license.reqHeaders != "" then [c.license.reqHeaders] else [])
  {
    var sys, url, hdr := c.system, c.license.serverUrl, c.license.reqHeaders;
    FieldsOfPlain(url);
    FieldsOfPlain(hdr);
    if hdr != "" {
      assert LegacyValue(c).value == sys + "|" + (url + "|" + hdr);
      FieldsJoin(sys, url + "|" + hdr);
      FieldsJoin(url, hdr);
    } else {
      assert LegacyValue(c).value == sys + "|" + url;
      FieldsJoin(sys, url);
    }
  }

  /** The Widevine example with license headers. */
  lemma WidevineLegacyValue(license: DrmLicense)
    requires license.serverUrl == "https://lic.example/w" && license.reqHeaders == "X-A: 1"
    ensures LegacyValue(DrmConfig("com.widevine.alpha", None, license))
         == Some("com.widevine.alpha|https://lic.example/w|X-A: 1")
  {
    var sys, url, hdr := "com.widevine.alpha", "https://lic.example/w", "X-A: 1";
    assert sys + "|" + url + "|" + hdr == "com.widevine.alpha|https://lic.example/w|X-A: 1";
  }

  /** The Widevine example without license headers: two fields only. */
  lemma WidevineLegacyValueNoHeaders(license: DrmLicense)
    requires license.serverUrl == "https://lic.example/w" && license.reqHeaders == ""
    ensures LegacyValue(DrmConfig("com.widevine.alpha", None, license))
         == Some("com.widevine.alpha|https://lic.example/w")
  {
    var sys, url := "com.widevine.alpha", "https://lic.example/w";
    assert sys + "|" + url == "com.widevine.alpha|https://lic.example/w";
  }
}
